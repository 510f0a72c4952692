/**
 The waiter application's index of its orders by table, apps/waiter-app/src/store/waiter.store.ts:
 one group for each table or walk-in order, with running counters.
 */
module WaiterTables {
  import opened Grouping
  import opened Options
  import opened Orders
  import opened OrderStores
  import opened Sequences

  datatype Summary = Summary(tableId: Option<string>, tableNumber: Option<int>, totalOrders: int, totalAmount: real,
                             preparingOrders: int, readyOrders: int, deliveredOrders: int)
  datatype TableGroup = TableGroup(summary: Summary, orders: seq<Order>)

  const TableKey: Order -> string := (o: Order) =>
    if o.tableId.Some? && o.tableId.value != "" then o.tableId.value else "walk-in:" + o.id

  const AmountOf: Order -> real := (o: Order) => if o.grandTotal.Some? then o.grandTotal.value else 0.0

  function Is(status: OrderStatus): Order -> int { (o: Order) => if o.status == status then 1 else 0 }

  /** What the summary of a group of orders should say. */
  function Summarize(orders: seq<Order>): Summary {
    Summary(if orders == [] then None else orders[0].tableId, if orders == [] then None else orders[0].tableNumber,
            |orders|, Sum(orders, AmountOf),
            Total(orders, Is(Preparing)), Total(orders, Is(Ready)), Total(orders, Is(Delivered)))
  }

  const GroupOf: seq<Order> -> TableGroup := (orders: seq<Order>) => TableGroup(Summarize(orders), orders)

  function GroupsOfSorted(sorted: seq<Order>): seq<TableGroup> {
    var keys := Keys(sorted, TableKey);
    seq(|keys|, i requires 0 <= i < |keys| => GroupOf(Members(sorted, TableKey, keys[i])))
  }

  /** The index that belongs to a list of orders. */
  function TableGroups(orders: seq<Order>): seq<TableGroup> { GroupsOfSorted(Normalize(orders)) }

  lemma SummarizeSnoc(orders: seq<Order>, o: Order)
    requires orders != []
    ensures Summarize(orders + [o]) ==
            var s := Summarize(orders);
            s.(totalOrders := s.totalOrders + 1, totalAmount := s.totalAmount + AmountOf(o),
               preparingOrders := s.preparingOrders + Is(Preparing)(o), readyOrders := s.readyOrders + Is(Ready)(o),
               deliveredOrders := s.deliveredOrders + Is(Delivered)(o))
  {
    FrontLast(orders, o);
  }

  lemma SummarizeOne(o: Order)
    ensures Summarize([o]) ==
            Summary(o.tableId, o.tableNumber, 1, AmountOf(o), Is(Preparing)(o), Is(Ready)(o), Is(Delivered)(o))
  {
    var none: seq<Order> := [];
    assert none + [o] == [o];
    SumSnoc(none, o, AmountOf);
    FrontLast(none, o);
    assert Total(none, Is(Preparing)) == Total(none, Is(Ready)) == Total(none, Is(Delivered)) == 0;
  }

  /** A new group for an order. */
  method OpenGroup(order: Order) returns (g: TableGroup)
    ensures g == GroupOf([order])
  {
    SummarizeOne(order);
    var summary := Summary(order.tableId, order.tableNumber, 1, if order.grandTotal.Some? then order.grandTotal.value else 0.0,
                           if order.status == Preparing then 1 else 0,
                           if order.status == Ready then 1 else 0,
                           if order.status == Delivered then 1 else 0);
    g := TableGroup(summary, [order]);
  }

  /** One more order in a group: push it and bump the counters. */
  method PushOrder(current: TableGroup, order: Order) returns (g: TableGroup)
    requires current.orders != [] && current == GroupOf(current.orders)
    ensures g == GroupOf(current.orders + [order])
  {
    SummarizeSnoc(current.orders, order);
    var s := current.summary;
    s := s.(totalOrders := s.totalOrders + 1);
    s := s.(totalAmount := s.totalAmount + if order.grandTotal.Some? then order.grandTotal.value else 0.0);
    s := s.(preparingOrders := s.preparingOrders + if order.status == Preparing then 1 else 0);
    s := s.(readyOrders := s.readyOrders + if order.status == Ready then 1 else 0);
    s := s.(deliveredOrders := s.deliveredOrders + if order.status == Delivered then 1 else 0);
    g := TableGroup(s, current.orders + [order]);
  }

  /** The loop with its `Map`: `keys` is the insertion order of `groups`. */
  method BuildTableOrderGroups(orders: seq<Order>) returns (result: seq<TableGroup>)
    ensures result == TableGroups(orders)
  {
    hide Normalize, Summarize, Sum, Total;
    var sorted := Normalize(orders);
    var keys: seq<string>, groups: map<string, TableGroup> := [], map[];
    for i := 0 to |sorted|
      invariant Built(sorted[..i], TableKey, GroupOf, keys, groups)
    {
      hide Built, Members, Keys;
      var order := sorted[i];
      var key := TableKey(order);
      assert sorted[..i + 1] == sorted[..i] + [order];
      NextMembers(sorted[..i], order, TableKey, GroupOf, keys, groups);
      var g: TableGroup;
      if key in groups {
        g := PushOrder(groups[key], order);
      } else {
        g := OpenGroup(order);
        assert [] + [order] == [order];
      }
      BuiltStep(sorted[..i], order, TableKey, GroupOf, keys, groups, g);
      keys := if key in groups then keys else keys + [key];
      groups := groups[key := g];
    }
    assert sorted[..|sorted|] == sorted;
    result := seq(|keys|, i requires 0 <= i < |keys| && keys[i] in groups => groups[keys[i]]);
  }

  // ---------- The index is a partition ----------

  const OrdersOf: TableGroup -> seq<Order> := (g: TableGroup) => g.orders

  lemma GroupsHoldOrders(sorted: seq<Order>)
    ensures multiset(FlatMap(GroupsOfSorted(sorted), OrdersOf)) == multiset(sorted)
  {
    var keys := Keys(sorted, TableKey);
    GroupingPermutes(sorted, TableKey);
    FlatMapAlike(GroupsOfSorted(sorted), OrdersOf, keys, MembersOf(sorted, TableKey));
  }

  /** For every list of orders: the groups together hold exactly its active orders, each group is not
      empty, holds every active order of one key and no other, and no two groups share a key. */
  lemma GroupsPartition(orders: seq<Order>)
    ensures var groups := TableGroups(orders);
            && multiset(FlatMap(groups, OrdersOf)) == multiset(Filter(orders, ActiveIn(TABLE_SERVICE)))
            && (forall i :: 0 <= i < |groups| ==> groups[i].orders != [] && groups[i].summary == Summarize(groups[i].orders))
            && (forall i, o :: 0 <= i < |groups| ==>
                  (o in groups[i].orders <==> o in orders && o.id != "" && o.status in TABLE_SERVICE
                                              && TableKey(o) == TableKey(groups[i].orders[0])))
            && (forall i, j :: 0 <= i < j < |groups| ==> TableKey(groups[i].orders[0]) != TableKey(groups[j].orders[0]))
  {
    hide Summarize, GroupsOfSorted, FlatMap, Filter, StableSort, Keys;
    var sorted, groups := Normalize(orders), TableGroups(orders);
    SortPermutes(Filter(orders, ActiveIn(TABLE_SERVICE)), ByTime);
    GroupsHoldOrders(sorted);
    KeysComplete(sorted, TableKey);
    GroupCount(sorted);
    forall i | 0 <= i < |groups|
      ensures groups[i].orders != [] && groups[i].summary == Summarize(groups[i].orders)
      ensures TableKey(groups[i].orders[0]) == Keys(sorted, TableKey)[i]
      ensures forall o :: o in groups[i].orders <==> o in sorted && TableKey(o) == Keys(sorted, TableKey)[i]
    {
      GroupMembers(sorted, i);
    }
    forall o
      ensures o in sorted <==> o in orders && o.id != "" && o.status in TABLE_SERVICE
    {
      NormalizedMembers(orders, o);
    }
  }

  predicate AtTable(o: Order) { o.tableId.Some? && o.tableId.value != "" }

  /** One order is at a table whose id reads like the key of the other, which is at none. */
  predicate PosesAsWalkIn(a: Order, b: Order) { AtTable(a) && !AtTable(b) && a.tableId.value == "walk-in:" + b.id }

  lemma SameKeyIff(a: Order, b: Order)
    ensures TableKey(a) == TableKey(b) <==>
              || (AtTable(a) && AtTable(b) && a.tableId == b.tableId)
              || (!AtTable(a) && !AtTable(b) && a.id == b.id)
              || PosesAsWalkIn(a, b) || PosesAsWalkIn(b, a)
  {
    assert ("walk-in:" + a.id)[8..] == a.id && ("walk-in:" + b.id)[8..] == b.id;
  }

  /** Two active orders are in one group exactly if they are at the same table, or both at none with one id; or
      one is at a table whose id reads like a walk-in order's key and the other is that order. */
  lemma SameGroupIff(orders: seq<Order>, a: Order, b: Order)
    requires a in orders && a.id != "" && a.status in TABLE_SERVICE
    requires b in orders && b.id != "" && b.status in TABLE_SERVICE
    ensures (exists i :: 0 <= i < |TableGroups(orders)| && a in TableGroups(orders)[i].orders && b in TableGroups(orders)[i].orders) <==>
              || (AtTable(a) && AtTable(b) && a.tableId == b.tableId)
              || (!AtTable(a) && !AtTable(b) && a.id == b.id)
              || PosesAsWalkIn(a, b) || PosesAsWalkIn(b, a)
  {
    SameKeyIff(a, b);
    hide AtTable, PosesAsWalkIn, TableGroups;
    GroupsPartition(orders);
    var i := GroupOfOrder(orders, a);
  }

  /** Where an active order is shown. */
  lemma GroupOfOrder(orders: seq<Order>, o: Order) returns (i: nat)
    requires o in orders && o.id != "" && o.status in TABLE_SERVICE
    ensures i < |TableGroups(orders)| && o in TableGroups(orders)[i].orders
  {
    var sorted := Normalize(orders);
    NormalizedMembers(orders, o);
    GroupCount(sorted);
    KeyOccurs(sorted, o);
    i :| 0 <= i < |Keys(sorted, TableKey)| && Keys(sorted, TableKey)[i] == TableKey(o);
    GroupMembers(sorted, i);
  }

  lemma KeyOccurs(sorted: seq<Order>, o: Order)
    requires o in sorted
    ensures TableKey(o) in Keys(sorted, TableKey)
  {
    KeysComplete(sorted, TableKey);
    FilterMembers(sorted, Having(TableKey, TableKey(o)));
    hide Filter, Keys;
    assert o in Members(sorted, TableKey, TableKey(o));
  }

  lemma GroupCount(sorted: seq<Order>)
    ensures |GroupsOfSorted(sorted)| == |Keys(sorted, TableKey)|
  {
  }

  lemma NormalizedMembers(orders: seq<Order>, o: Order)
    ensures o in Normalize(orders) <==> o in orders && o.id != "" && o.status in TABLE_SERVICE
  {
    var active := Filter(orders, ActiveIn(TABLE_SERVICE));
    FilterMembers(orders, ActiveIn(TABLE_SERVICE));
    SortPermutes(active, ByTime);
    hide StableSort, Filter;
    assert o in Normalize(orders) <==> o in multiset(Normalize(orders));
    assert o in active <==> o in multiset(active);
  }

  /** The group of one key: all its orders, the first of which tells the key. */
  lemma GroupMembers(sorted: seq<Order>, i: nat)
    requires i < |GroupsOfSorted(sorted)| && i < |Keys(sorted, TableKey)|
    ensures var (g, k) := (GroupsOfSorted(sorted)[i], Keys(sorted, TableKey)[i]);
            && g.orders != [] && g.summary == Summarize(g.orders) && TableKey(g.orders[0]) == k
            && forall o :: o in g.orders <==> o in sorted && TableKey(o) == k
  {
    hide Summarize, Filter, Keys;
    var k := Keys(sorted, TableKey)[i];
    KeysComplete(sorted, TableKey);
    assert k in Keys(sorted, TableKey);
    FilterMembers(sorted, Having(TableKey, k));
    assert GroupsOfSorted(sorted)[i].orders[0] in GroupsOfSorted(sorted)[i].orders;
  }

  /** The tables appear in the order of their oldest active orders, and each lists its orders oldest first. */
  lemma GroupsInTimeOrder(orders: seq<Order>)
    ensures var groups := TableGroups(orders);
            && (forall i :: 0 <= i < |groups| ==> groups[i].orders != [] && Sorted(groups[i].orders, ByTime))
            && (forall i, j :: 0 <= i < j < |groups| ==> groups[i].orders[0].createdAt <= groups[j].orders[0].createdAt)
  {
    var sorted, groups := Normalize(orders), TableGroups(orders);
    var keys := Keys(sorted, TableKey);
    ByTimeIsPreorder();
    SortSorts(Filter(orders, ActiveIn(TABLE_SERVICE)), ByTime);
    FirstsInOrder(sorted, TableKey, ByTime);
    forall i | 0 <= i < |groups|
      ensures groups[i].orders != [] && Sorted(groups[i].orders, ByTime) && groups[i].orders[0] == First(sorted, TableKey, keys[i])
    {
      assert keys[i] in keys;
      FilterSorted(sorted, ByTime, Having(TableKey, keys[i]));
    }
    forall i, j | 0 <= i < j < |groups|
      ensures groups[i].orders[0].createdAt <= groups[j].orders[0].createdAt
    {
      assert ByTime(First(sorted, TableKey, keys[i]), First(sorted, TableKey, keys[j]));
    }
  }

  const CountOf: TableGroup -> int := (g: TableGroup) => g.summary.totalOrders
  const RevenueOf: TableGroup -> real := (g: TableGroup) => g.summary.totalAmount

  lemma {:induction false} TotalsAddUp(groups: seq<TableGroup>)
    requires forall i :: 0 <= i < |groups| ==> groups[i].summary == Summarize(groups[i].orders)
    ensures Total(groups, CountOf) == |FlatMap(groups, OrdersOf)|
    ensures Sum(groups, RevenueOf) == Sum(FlatMap(groups, OrdersOf), AmountOf)
  {
    if groups != [] {
      assert forall i :: 0 <= i < |Front(groups)| ==> Front(groups)[i] == groups[i];
      assert Last(groups) == groups[|groups| - 1];
      TotalsAddUp(Front(groups));
      SumConcat(FlatMap(Front(groups), OrdersOf), Last(groups).orders, AmountOf);
    }
  }

  /** Adding up the tables gives the number of active orders and their grand totals. */
  lemma GroupsConserveTotals(orders: seq<Order>)
    ensures Total(TableGroups(orders), CountOf) == |Filter(orders, ActiveIn(TABLE_SERVICE))|
    ensures Sum(TableGroups(orders), RevenueOf) == Sum(Filter(orders, ActiveIn(TABLE_SERVICE)), AmountOf)
  {
    var groups, active := TableGroups(orders), Filter(orders, ActiveIn(TABLE_SERVICE));
    GroupsPartition(orders);
    TotalsAddUp(groups);
    SumPermute(FlatMap(groups, OrdersOf), active, AmountOf);
    assert |multiset(FlatMap(groups, OrdersOf))| == |multiset(active)|;
  }

  /** Normalizing a list that is kept changes nothing, so the index of such a list is a partition of
      the list itself. */
  lemma NormalizeKept(orders: seq<Order>, known: map<string, Order>)
    requires Lists(orders, known, TABLE_SERVICE)
    ensures Normalize(orders) == orders
    ensures multiset(FlatMap(TableGroups(orders), OrdersOf)) == multiset(orders)
  {
    FilterAll(orders, ActiveIn(TABLE_SERVICE));
    SortedIsFixed(orders, ByTime);
    GroupsHoldOrders(orders);
  }

  // ---------- The store ----------

  class WaiterStore {
    var orders: seq<Order>
    var tableOrderGroups: seq<TableGroup>
    var selectedEditableOrderId: Option<string>

    constructor ()
      ensures orders == [] && tableOrderGroups == [] && selectedEditableOrderId == None && Indexed()
    {
      orders, tableOrderGroups, selectedEditableOrderId := [], [], None;
    }

    /** The index is the one that a rebuild from the orders would give. */
    ghost predicate Indexed()
      reads this
    {
      tableOrderGroups == TableGroups(orders)
    }

    /** The order being edited is one of the orders. */
    ghost predicate EditsListed()
      reads this
    {
      selectedEditableOrderId.Some? ==> exists o :: o in orders && o.id == selectedEditableOrderId.value
    }

    /** Supplied groups are stored as they are; the index is only right if they are. */
    method SetInitialData(initial: seq<Order>, groups: Option<seq<TableGroup>>)
      modifies this
      ensures orders == Normalize(initial)
      ensures tableOrderGroups == if groups.Some? then groups.value else TableGroups(orders)
      ensures Indexed() <==> groups.None? || groups.value == TableGroups(orders)
      ensures EditsListed()
      ensures selectedEditableOrderId == None || selectedEditableOrderId == old(selectedEditableOrderId)
      ensures selectedEditableOrderId == None ==>
                old(selectedEditableOrderId) == None || forall o :: o in orders ==> o.id != old(selectedEditableOrderId).value
    {
      orders := Normalize(initial);
      if groups.Some? {
        tableOrderGroups := groups.value;
      } else {
        tableOrderGroups := BuildTableOrderGroups(orders);
      }
      if selectedEditableOrderId.Some? && IndexOf(orders, selectedEditableOrderId.value).None? {
        selectedEditableOrderId := None;
      }
    }

    method UpsertOrder(order: Order)
      modifies this
      ensures orders == WaiterUpsert(old(orders), order)
      ensures Indexed()
      ensures selectedEditableOrderId ==
              if old(selectedEditableOrderId) == Some(order.id) && order.status !in TABLE_SERVICE then None
              else old(selectedEditableOrderId)
      ensures old(EditsListed()) && order.id != "" && (forall o :: o in old(orders) ==> ActiveIn(TABLE_SERVICE)(o)) ==> EditsListed()
    {
      var without := Filter(orders, NotId(order.id));
      var nextOrders := Normalize(without + [order]);
      FilterMembers(orders, NotId(order.id));
      FilterMembers(without + [order], ActiveIn(TABLE_SERVICE));
      SortPermutes(Filter(without + [order], ActiveIn(TABLE_SERVICE)), ByTime);
      assert forall o :: o in nextOrders <==> (o in without || o == order) && ActiveIn(TABLE_SERVICE)(o);
      orders := nextOrders;
      tableOrderGroups := BuildTableOrderGroups(nextOrders);
      if selectedEditableOrderId == Some(order.id) && order.status !in TABLE_SERVICE {
        selectedEditableOrderId := None;
      }
    }

    method RemoveOrder(orderId: string)
      modifies this
      ensures orders == Remove(old(orders), orderId)
      ensures Indexed()
      ensures selectedEditableOrderId == if old(selectedEditableOrderId) == Some(orderId) then None else old(selectedEditableOrderId)
      ensures old(EditsListed()) ==> EditsListed()
    {
      FilterMembers(orders, NotId(orderId));
      orders := Filter(orders, NotId(orderId));
      tableOrderGroups := BuildTableOrderGroups(orders);
      if selectedEditableOrderId == Some(orderId) {
        selectedEditableOrderId := None;
      }
    }
  }
}
