/**
 The stock ledger of backend/src/modules/inventory/inventory.service.ts, together with the deduction of
 ingredients in backend/src/modules/orders/orders.service.ts, which changes the same rows.
 */
module InventoryModel {
  import opened Options
  import opened Sequences

  datatype Status = Critical | LowStock | Healthy
  datatype Item = Item(restaurantId: string, stockLevel: real, minAlertLevel: real, status: Status)
  datatype Supply = Supply(itemId: nat, quantityAdded: real)

  /** Rows by id; `nextId` stands for a fresh random id. */
  datatype Store = Store(items: map<nat, Item>, logs: seq<Supply>, nextId: nat)

  type Outcome = Result<Item, ()>

  function ResolveStatus(stockLevel: real, minAlertLevel: real): Status {
    if stockLevel <= minAlertLevel * 0.5 then Critical
    else if stockLevel <= minAlertLevel then LowStock
    else Healthy
  }

  function Create(s: Store, restaurantId: string, stockLevel: real, minAlertLevel: real): (Store, Outcome) {
    var item := Item(restaurantId, stockLevel, minAlertLevel, ResolveStatus(stockLevel, minAlertLevel));
    (Store(s.items[s.nextId := item], s.logs + [Supply(s.nextId, stockLevel)], s.nextId + 1), Ok(item))
  }

  predicate Found(s: Store, id: nat, restaurantId: string) { id in s.items && s.items[id].restaurantId == restaurantId }

  function Update(s: Store, id: nat, restaurantId: string, stockLevel: Option<real>, minAlertLevel: Option<real>): (Store, Outcome) {
    if !Found(s, id, restaurantId) then (s, Err(()))
    else
      var current := s.items[id];
      var stock := if stockLevel.Some? then stockLevel.value else current.stockLevel;
      var alert := if minAlertLevel.Some? then minAlertLevel.value else current.minAlertLevel;
      var item := Item(restaurantId, stock, alert, ResolveStatus(stock, alert));
      (s.(items := s.items[id := item],
          logs := if stockLevel.Some? && stockLevel.value > current.stockLevel
                  then s.logs + [Supply(id, stockLevel.value - current.stockLevel)] else s.logs), Ok(item))
  }

  function OtherItem(id: nat): Supply -> bool { (l: Supply) => l.itemId != id }

  function Remove(s: Store, id: nat, restaurantId: string): (Store, Outcome) {
    if !Found(s, id, restaurantId) then (s, Err(()))
    else (s.(items := s.items - {id}, logs := Filter(s.logs, OtherItem(id))), Ok(s.items[id]))
  }

  /** One ingredient of an order: nothing happens for a quantity that is not positive. */
  function Deduct(s: Store, id: nat, quantity: real): Store {
    if quantity <= 0.0 || id !in s.items then s
    else
      var current := s.items[id];
      var stock := current.stockLevel - quantity;
      s.(items := s.items[id := current.(stockLevel := stock, status := ResolveStatus(stock, current.minAlertLevel))])
  }

  // ---------- Runs ----------

  datatype Op =
    | CreateOp(restaurantId: string, initialStock: real, initialAlert: real)
    | UpdateOp(id: nat, restaurantId: string, stockLevel: Option<real>, minAlertLevel: Option<real>)
    | RemoveOp(id: nat, restaurantId: string)
    | DeductOp(id: nat, quantity: real)

  function Step(s: Store, op: Op): Store {
    match op
    case CreateOp(r, stock, alert) => Create(s, r, stock, alert).0
    case UpdateOp(id, r, stock, alert) => Update(s, id, r, stock, alert).0
    case RemoveOp(id, r) => Remove(s, id, r).0
    case DeductOp(id, quantity) => Deduct(s, id, quantity)
  }

  const EMPTY_STORE: Store := Store(map[], [], 0)

  function Run(ops: seq<Op>): Store {
    if ops == [] then EMPTY_STORE else Step(Run(Front(ops)), Last(ops))
  }

  /** What an operation takes out of an item: a deduction its quantity, an edit the difference to a lower level. */
  function Lowered(s: Store, op: Op, id: nat): real {
    match op
    case UpdateOp(edited, r, stock, _) =>
      if edited == id && id in s.items && s.items[id].restaurantId == r && stock.Some? && stock.value < s.items[id].stockLevel
      then s.items[id].stockLevel - stock.value else 0.0
    case DeductOp(used, quantity) => if used == id && id in s.items && quantity > 0.0 then quantity else 0.0
    case _ => 0.0
  }

  /** All that a run has taken out of an item: downward edits and deductions. */
  function TakenOut(ops: seq<Op>, id: nat): real {
    if ops == [] then 0.0 else TakenOut(Front(ops), id) + Lowered(Run(Front(ops)), Last(ops), id)
  }

  function SuppliedTo(id: nat): Supply -> real { (l: Supply) => if l.itemId == id then l.quantityAdded else 0.0 }

  function Supplied(s: Store, id: nat): real { Sum(s.logs, SuppliedTo(id)) }

  /** Items have ids that were given out, and so do the logs; an id that was not has neither. */
  ghost predicate Issued(s: Store) {
    && (forall id :: id in s.items ==> id < s.nextId)
    && (forall i :: 0 <= i < |s.logs| ==> s.logs[i].itemId < s.nextId)
  }

  lemma {:induction false} NoSupply(logs: seq<Supply>, id: nat)
    requires forall i :: 0 <= i < |logs| ==> logs[i].itemId != id
    ensures Sum(logs, SuppliedTo(id)) == 0.0
  {
    if logs != [] {
      NoSupply(Front(logs), id);
    }
  }

  lemma {:induction false} SupplyWithoutOther(logs: seq<Supply>, id: nat, other: nat)
    requires id != other
    ensures Sum(Filter(logs, OtherItem(other)), SuppliedTo(id)) == Sum(logs, SuppliedTo(id))
  {
    if logs != [] {
      SupplyWithoutOther(Front(logs), id, other);
      SumSnoc(Filter(Front(logs), OtherItem(other)), Last(logs), SuppliedTo(id));
      assert Filter(Front(logs), OtherItem(other)) + [] == Filter(Front(logs), OtherItem(other));
    }
  }

  lemma StepKeepsIssued(s: Store, op: Op)
    requires Issued(s)
    ensures Issued(Step(s, op))
  {
    if op.RemoveOp? {
      FilterMembers(s.logs, OtherItem(op.id));
      var logs := Filter(s.logs, OtherItem(op.id));
      forall i | 0 <= i < |logs|
        ensures logs[i].itemId < s.nextId
      {
        assert logs[i] in logs;
      }
    }
  }

  /** One operation moves an item's stock by what it logs as supplied, less what it takes out. */
  lemma StepBalances(s: Store, op: Op, id: nat)
    requires Issued(s) && id in s.items && id in Step(s, op).items
    ensures Supplied(Step(s, op), id) - Supplied(s, id) ==
            Step(s, op).items[id].stockLevel - s.items[id].stockLevel + Lowered(s, op, id)
  {
    match op
    case CreateOp(r, stock, alert) => SumSnoc(s.logs, Supply(s.nextId, stock), SuppliedTo(id));
    case UpdateOp(other, r, stock, alert) =>
      if Found(s, other, r) && stock.Some? {
        SumSnoc(s.logs, Supply(other, stock.value - s.items[other].stockLevel), SuppliedTo(id));
      }
    case RemoveOp(other, r) =>
      if Found(s, other, r) {
        SupplyWithoutOther(s.logs, id, other);
      }
    case DeductOp(_, _) =>
  }

  /** An item's logs start with its initial stock. */
  lemma NewItemBalances(s: Store, op: Op, id: nat)
    requires Issued(s) && id !in s.items && id in Step(s, op).items
    ensures id == s.nextId && Supplied(Step(s, op), id) == Step(s, op).items[id].stockLevel
  {
    SumSnoc(s.logs, Supply(s.nextId, op.initialStock), SuppliedTo(id));
    NoSupply(s.logs, id);
  }

  /** Nothing was taken out of an item before its id was issued. */
  lemma {:induction false} NothingTakenBefore(ops: seq<Op>, id: nat)
    requires id >= Run(ops).nextId
    ensures TakenOut(ops, id) == 0.0 && Issued(Run(ops))
  {
    if ops != [] {
      RunKeepsIssued(Front(ops));
      NothingTakenBefore(Front(ops), id);
      RunKeepsIssued(ops);
    }
  }

  lemma {:induction false} RunKeepsIssued(ops: seq<Op>)
    ensures Issued(Run(ops))
  {
    if ops != [] {
      RunKeepsIssued(Front(ops));
      StepKeepsIssued(Run(Front(ops)), Last(ops));
    }
  }

  /** Over every run of creating, editing, removing and deducting: what was logged as supplied to an item is
      its stock plus all that was taken out, so the logs always cover the stock. */
  lemma {:induction false} LogsCoverStock(ops: seq<Op>, id: nat)
    requires id in Run(ops).items
    ensures Supplied(Run(ops), id) == Run(ops).items[id].stockLevel + TakenOut(ops, id)
    ensures Supplied(Run(ops), id) >= Run(ops).items[id].stockLevel
  {
    var s, op := Run(Front(ops)), Last(ops);
    RunKeepsIssued(Front(ops));
    TakenOutNonNegative(ops, id);
    if id in s.items {
      LogsCoverStock(Front(ops), id);
      StepBalances(s, op, id);
    } else {
      NewItemBalances(s, op, id);
      NothingTakenBefore(Front(ops), id);
    }
  }

  lemma {:induction false} TakenOutNonNegative(ops: seq<Op>, id: nat)
    ensures TakenOut(ops, id) >= 0.0
  {
    if ops != [] {
      TakenOutNonNegative(Front(ops), id);
    }
  }

  /** The stored status is always that of the stored levels: critical while twice the stock is not above the alert
      level, healthy while the stock is above it and not critical, low otherwise. */
  lemma {:induction false} StatusCurrent(ops: seq<Op>)
    ensures forall id :: id in Run(ops).items ==>
      var item := Run(ops).items[id];
      && item.status == ResolveStatus(item.stockLevel, item.minAlertLevel)
      && (item.status == Critical <==> item.stockLevel + item.stockLevel <= item.minAlertLevel)
      && (item.status == Healthy <==> item.stockLevel > item.minAlertLevel && item.stockLevel + item.stockLevel > item.minAlertLevel)
  {
    if ops != [] {
      StatusCurrent(Front(ops));
    }
  }

  /** What one operation changes: the named item only, if it exists and, but for a deduction, belongs to the
      restaurant; a new one, under a new id; the levels that are given; the stock by the quantity. */
  lemma StepChanges(s: Store, op: Op)
    ensures var after := Step(s, op);
            match op
            case CreateOp(r, stock, alert) =>
              && after.items.Keys == s.items.Keys + {s.nextId} && after.nextId == s.nextId + 1
              && after.items[s.nextId].restaurantId == r
              && after.items[s.nextId].stockLevel == stock && after.items[s.nextId].minAlertLevel == alert
              && (forall id :: id in s.items && id != s.nextId ==> after.items[id] == s.items[id])
            case UpdateOp(id, r, stock, alert) =>
              if id in s.items && s.items[id].restaurantId == r then
                && after.items.Keys == s.items.Keys
                && (forall other :: other in s.items && other != id ==> after.items[other] == s.items[other])
                && after.items[id].restaurantId == r
                && after.items[id].stockLevel == (if stock.Some? then stock.value else s.items[id].stockLevel)
                && after.items[id].minAlertLevel == (if alert.Some? then alert.value else s.items[id].minAlertLevel)
              else after == s
            case RemoveOp(id, r) =>
              if id in s.items && s.items[id].restaurantId == r then
                after.items == s.items - {id} && forall i :: 0 <= i < |after.logs| ==> after.logs[i].itemId != id && after.logs[i] in s.logs
              else after == s
            case DeductOp(id, quantity) =>
              if id in s.items && quantity > 0.0 then
                && after.items.Keys == s.items.Keys && after.logs == s.logs
                && (forall other :: other in s.items && other != id ==> after.items[other] == s.items[other])
                && after.items[id].stockLevel == s.items[id].stockLevel - quantity
                && after.items[id].minAlertLevel == s.items[id].minAlertLevel && after.items[id].restaurantId == s.items[id].restaurantId
              else after == s
  {
    match op
    case RemoveOp(id, r) =>
      FilterMembers(s.logs, OtherItem(id));
      assert forall i :: 0 <= i < |Step(s, op).logs| ==> Step(s, op).logs[i] in Step(s, op).logs || Step(s, op) == s;
    case _ =>
  }

  function Severity(status: Status): int {
    match status
    case Healthy => 0
    case LowStock => 1
    case Critical => 2
  }

  /** After any run, an operation that keeps an item's alert level makes its status worse only by lowering its
      stock and better only by raising it; a deduction never makes it better. */
  lemma StatusFollowsStock(ops: seq<Op>, op: Op, id: nat)
    requires id in Run(ops).items && id in Step(Run(ops), op).items
    requires Step(Run(ops), op).items[id].minAlertLevel == Run(ops).items[id].minAlertLevel
    ensures var (was, now) := (Run(ops).items[id], Step(Run(ops), op).items[id]);
            && (Severity(now.status) > Severity(was.status) ==> now.stockLevel < was.stockLevel)
            && (Severity(now.status) < Severity(was.status) ==> now.stockLevel > was.stockLevel && !op.DeductOp?)
  {
    StatusCurrent(ops);
    StatusCurrent(ops + [op]);
    FrontLast(ops, op);
    var was, now := Run(ops).items[id], Run(ops + [op]).items[id];
    if was.stockLevel <= now.stockLevel {
      Monotone(was.stockLevel, now.stockLevel, was.minAlertLevel);
    }
    if now.stockLevel <= was.stockLevel {
      Monotone(now.stockLevel, was.stockLevel, was.minAlertLevel);
    }
  }

  lemma Monotone(stock: real, more: real, alert: real)
    requires stock <= more
    ensures Severity(ResolveStatus(more, alert)) <= Severity(ResolveStatus(stock, alert))
  {
  }
}

/** The service object over its two tables. */
module InventoryObjects {
  import opened Options
  import opened Sequences
  import opened Spec = InventoryModel

  class InventoryService {
    var items: map<nat, Item>
    var logs: seq<Supply>
    var nextId: nat

    constructor ()
      ensures State() == EMPTY_STORE
    {
      items, logs, nextId := map[], [], 0;
    }

    function State(): Store
      reads this
    {
      Store(items, logs, nextId)
    }

    method Create(restaurantId: string, stockLevel: real, minAlertLevel: real) returns (r: Outcome)
      modifies this
      ensures (State(), r) == Spec.Create(old(State()), restaurantId, stockLevel, minAlertLevel)
    {
      var item := Item(restaurantId, stockLevel, minAlertLevel, ResolveStatus(stockLevel, minAlertLevel));
      items := items[nextId := item];
      logs := logs + [Supply(nextId, stockLevel)];
      nextId := nextId + 1;
      r := Ok(item);
    }

    method Update(id: nat, restaurantId: string, stockLevel: Option<real>, minAlertLevel: Option<real>) returns (r: Outcome)
      modifies this
      ensures (State(), r) == Spec.Update(old(State()), id, restaurantId, stockLevel, minAlertLevel)
    {
      if id !in items || items[id].restaurantId != restaurantId {
        return Err(());
      }
      var current := items[id];
      var item := current;
      if stockLevel.Some? {
        item := item.(stockLevel := stockLevel.value);
      }
      if minAlertLevel.Some? {
        item := item.(minAlertLevel := minAlertLevel.value);
      }
      item := item.(status := ResolveStatus(item.stockLevel, item.minAlertLevel));
      items := items[id := item];
      if stockLevel.Some? && stockLevel.value > current.stockLevel {
        logs := logs + [Supply(id, stockLevel.value - current.stockLevel)];
      }
      r := Ok(item);
    }

    method Remove(id: nat, restaurantId: string) returns (r: Outcome)
      modifies this
      ensures (State(), r) == Spec.Remove(old(State()), id, restaurantId)
    {
      if id !in items || items[id].restaurantId != restaurantId {
        return Err(());
      }
      r := Ok(items[id]);
      logs := Filter(logs, OtherItem(id));
      items := items - {id};
    }

    /** One update of `depleteInventoryForOrder`. */
    method Deduct(id: nat, quantity: real)
      modifies this
      ensures State() == Spec.Deduct(old(State()), id, quantity)
    {
      if quantity <= 0.0 || id !in items {
        return;
      }
      var updated := items[id].(stockLevel := items[id].stockLevel - quantity);
      updated := updated.(status := ResolveStatus(updated.stockLevel, updated.minAlertLevel));
      items := items[id := updated];
    }
  }
}
