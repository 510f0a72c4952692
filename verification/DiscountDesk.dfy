/**
 Creating, changing, approving and removing discounts, backend/src/modules/discounts/discounts.service.ts,
 and what each of these does to the ledger figure of an order. Rows are kept in creation order,
 which is the order `summarizeByOrder` reads them in.
 */
module DiscountDesk {
  import opened Discounts
  import opened Options
  import opened Reals
  import opened Sequences
  import Text

  datatype Role = Admin | OtherRole
  datatype Actor = Actor(sub: string, role: Role, restaurantId: string)

  datatype Item = Item(price: real, quantity: int)
  datatype Order = Order(restaurantId: string, items: seq<Item>)

  datatype Row = Row(id: nat, orderId: string, discount: Discount, reason: string,
                     approvedBy: Option<string>, createdBy: string)

  datatype Desk = Desk(orders: map<string, Order>, rows: seq<Row>, nextId: nat)

  datatype DeskError = ReasonRequired | OrderNotFound | MakesTotalNegative | DiscountNotFound | AdminOnly

  const ItemTotal: Item -> real := (item: Item) => item.price * (item.quantity as real)

  function Subtotal(order: Order): real {
    Sum(order.items, ItemTotal)
  }

  /** Each item counts with its price times its quantity. */
  lemma SubtotalIs(restaurantId: string, items: seq<Item>, item: Item)
    ensures Subtotal(Order(restaurantId, [])) == 0.0
    ensures Subtotal(Order(restaurantId, items + [item])) == Subtotal(Order(restaurantId, items)) + item.price * (item.quantity as real)
  {
    SumSnoc(items, item, ItemTotal);
  }

  /** The discounts of one order, oldest first. */
  function OfOrder(rows: seq<Row>, orderId: string): seq<Discount> {
    if rows == [] then []
    else OfOrder(Front(rows), orderId) + (if Last(rows).orderId == orderId then [Last(rows).discount] else [])
  }

  /** The order's discounted subtotal as the ledger computes it. */
  function Figure(desk: Desk, orderId: string): real
    requires orderId in desk.orders
  {
    Discounted(Subtotal(desk.orders[orderId]), OfOrder(desk.rows, orderId))
  }

  function PercentValue(subtotal: real, kind: Kind, value: real): real {
    if kind.Percentage? then value
    else if subtotal > 0.0 then value / subtotal * 100.0
    else 0.0
  }

  function Amount(subtotal: real, kind: Kind, value: real): real {
    if kind.Percentage? then Percent(subtotal, value) else value
  }

  predicate OwnedOrder(desk: Desk, orderId: string, actor: Actor) {
    orderId in desk.orders && desk.orders[orderId].restaurantId == actor.restaurantId
  }

  /** `maxAuto` is the restaurant's maxAutoDiscountPercent, if it has set one. */
  function Create(desk: Desk, orderId: string, kind: Kind, value: real, reason: string, actor: Actor, maxAuto: Option<real>)
    : (Desk, Result<Row, DeskError>)
  {
    if Text.IsBlank(reason) then (desk, Err(ReasonRequired))
    else if !OwnedOrder(desk, orderId, actor) then (desk, Err(OrderNotFound))
    else
      var subtotal := Subtotal(desk.orders[orderId]);
      var limit := if maxAuto.Some? then maxAuto.value else 10.0;
      if subtotal - Amount(subtotal, kind, value) < 0.0 then (desk, Err(MakesTotalNegative))
      else
        var pending := PercentValue(subtotal, kind, value) > limit;
        var row := Row(desk.nextId, orderId,
                       Discount(kind, value, if pending then PendingApproval else Approved), reason,
                       if pending then None else Some(actor.sub), actor.sub);
        (desk.(rows := desk.rows + [row], nextId := desk.nextId + 1), Ok(row))
  }

  /** `requireOwnedDiscount`: where the row is. */
  function Find(desk: Desk, rows: seq<Row>, id: nat, actor: Actor): (r: Option<nat>)
    ensures r.Some? ==> r.value < |rows| && rows[r.value].id == id && OwnedOrder(desk, rows[r.value].orderId, actor)
    ensures r.None? ==> forall i :: 0 <= i < |rows| && rows[i].id == id ==> !OwnedOrder(desk, rows[i].orderId, actor)
  {
    if rows == [] then None
    else
      var prior := Find(desk, Front(rows), id, actor);
      if prior.Some? then prior
      else if Last(rows).id == id && OwnedOrder(desk, Last(rows).orderId, actor) then Some(|rows| - 1)
      else None
  }

  function Put(desk: Desk, i: nat, row: Row): Desk
    requires i < |desk.rows|
  {
    desk.(rows := desk.rows[i := row])
  }

  function Update(desk: Desk, id: nat, value: Option<real>, reason: string, actor: Actor): (Desk, Result<Row, DeskError>) {
    match Find(desk, desk.rows, id, actor)
    case None => (desk, Err(DiscountNotFound))
    case Some(i) =>
      var row := desk.rows[i];
      var changed := row.(reason := reason,
                          discount := if value.Some? then row.discount.(value := value.value) else row.discount);
      (Put(desk, i, changed), Ok(changed))
  }

  function Decide(desk: Desk, id: nat, verdict: Approval, actor: Actor): (Desk, Result<Row, DeskError>) {
    if actor.role != Admin then (desk, Err(AdminOnly))
    else
      match Find(desk, desk.rows, id, actor)
      case None => (desk, Err(DiscountNotFound))
      case Some(i) =>
        var row := desk.rows[i];
        var changed := row.(discount := row.discount.(approval := verdict), approvedBy := Some(actor.sub));
        (Put(desk, i, changed), Ok(changed))
  }

  function Remove(desk: Desk, id: nat, reason: string, actor: Actor): (Desk, Result<Row, DeskError>) {
    if Text.IsBlank(reason) then (desk, Err(ReasonRequired))
    else
      match Find(desk, desk.rows, id, actor)
      case None => (desk, Err(DiscountNotFound))
      case Some(i) => (desk.(rows := Without(desk.rows, i)), Ok(desk.rows[i]))
  }

  // ---------- The automatic limit ----------

  /** A discount that needed no approval takes at most the limit's share of the subtotal. */
  lemma AutoApprovedWithinLimit(desk: Desk, orderId: string, kind: Kind, value: real, reason: string, actor: Actor,
                                maxAuto: Option<real>)
    requires Create(desk, orderId, kind, value, reason, actor, maxAuto).1.Ok?
    requires Create(desk, orderId, kind, value, reason, actor, maxAuto).1.value.discount.approval.Approved?
    requires Subtotal(desk.orders[orderId]) >= 0.0
    ensures var subtotal := Subtotal(desk.orders[orderId]);
            Amount(subtotal, kind, value) <= Percent(subtotal, if maxAuto.Some? then maxAuto.value else 10.0)
  {
    hide Sum, Percent, Times;
    var subtotal := Subtotal(desk.orders[orderId]);
    var limit := if maxAuto.Some? then maxAuto.value else 10.0;
    PercentIsTimes(subtotal, value);
    PercentIsTimes(subtotal, limit);
    if kind.Percentage? {
      TimesMonotone(value / 100.0, limit / 100.0, subtotal);
    } else if subtotal > 0.0 {
      var ratio := value / subtotal;
      assert ratio * 100.0 <= limit;
      TimesMonotone(ratio, limit / 100.0, subtotal);
      Quotient(value, subtotal);
    } else {
      TimesUnits(limit / 100.0);
    }
  }

  lemma Quotient(a: real, b: real)
    requires b > 0.0
    ensures Times(b, a / b) == a
  {
  }

  // ---------- What the operations do to the figures ----------

  lemma {:induction false} OfOrderConcat(xs: seq<Row>, ys: seq<Row>, orderId: string)
    ensures OfOrder(xs + ys, orderId) == OfOrder(xs, orderId) + OfOrder(ys, orderId)
  {
    if ys == [] {
      assert xs + ys == xs;
    } else {
      assert xs + ys == (xs + Front(ys)) + [Last(ys)];
      FrontLast(xs + Front(ys), Last(ys));
      OfOrderConcat(xs, Front(ys), orderId);
    }
  }

  /** The rows around row `i`, and the order's discounts with `row` in its place or with nothing there. */
  lemma OfOrderAround(rows: seq<Row>, i: nat, row: Row, orderId: string)
    requires i < |rows|
    ensures OfOrder(rows[i := row], orderId) ==
              OfOrder(rows[..i], orderId) + (if row.orderId == orderId then [row.discount] else []) + OfOrder(rows[i + 1..], orderId)
    ensures OfOrder(Without(rows, i), orderId) == OfOrder(rows[..i], orderId) + OfOrder(rows[i + 1..], orderId)
  {
    assert rows[i := row] == (rows[..i] + [row]) + rows[i + 1..];
    OfOrderConcat(rows[..i] + [row], rows[i + 1..], orderId);
    FrontLast(rows[..i], row);
    OfOrderConcat(rows[..i], rows[i + 1..], orderId);
  }

  /** An unapproved discount has no effect on any figure. */
  lemma UnapprovedIsNothing(base: real, before: seq<Discount>, d: Discount, after: seq<Discount>)
    requires !d.approval.Approved?
    ensures Discounted(base, before + [d] + after) == Discounted(base, before + after)
  {
    DiscountedConcat(base, before + [d], after);
    DiscountedConcat(base, before, [d]);
    DiscountedOne(Discounted(base, before), d);
    DiscountedConcat(base, before, after);
  }

  /** Creating a discount never raises its order's figure; while it is pending it changes nothing. */
  lemma CreateFigure(desk: Desk, orderId: string, kind: Kind, value: real, reason: string, actor: Actor,
                     maxAuto: Option<real>, other: string)
    requires other in desk.orders && Subtotal(desk.orders[other]) >= 0.0
    ensures var (after, r) := Create(desk, orderId, kind, value, reason, actor, maxAuto);
            && Figure(after, other) <= Figure(desk, other)
            && (other != orderId || r.Err? || r.value.discount.approval.PendingApproval? ==> Figure(after, other) == Figure(desk, other))
  {
    hide Discounted;
    var (after, r) := Create(desk, orderId, kind, value, reason, actor, maxAuto);
    if r.Ok? {
      var base, prior := Subtotal(desk.orders[other]), OfOrder(desk.rows, other);
      FrontLast(desk.rows, r.value);
      if other == orderId {
        assert OfOrder(after.rows, other) == prior + [r.value.discount] + [];
        assert prior + [] == prior;
        InsertNeverRaises(base, prior, r.value.discount, []);
        if r.value.discount.approval.PendingApproval? {
          UnapprovedIsNothing(base, prior, r.value.discount, []);
        }
      } else {
        assert OfOrder(after.rows, other) == prior;
      }
    }
  }

  /** Approving never raises any figure and rejecting never lowers one; other orders keep theirs. */
  lemma DecideFigure(desk: Desk, id: nat, verdict: Approval, actor: Actor, other: string)
    requires other in desk.orders && Subtotal(desk.orders[other]) >= 0.0
    requires verdict == Approved || verdict == Rejected
    ensures var (after, r) := Decide(desk, id, verdict, actor);
            && (verdict == Approved ==> Figure(after, other) <= Figure(desk, other))
            && (verdict == Rejected ==> Figure(after, other) >= Figure(desk, other))
            && (r.Err? || r.value.orderId != other ==> Figure(after, other) == Figure(desk, other))
  {
    hide Discounted;
    var (after, r) := Decide(desk, id, verdict, actor);
    if r.Ok? {
      var i := Find(desk, desk.rows, id, actor).value;
      var base, row := Subtotal(desk.orders[other]), desk.rows[i];
      var a, b := OfOrder(desk.rows[..i], other), OfOrder(desk.rows[i + 1..], other);
      assert desk.rows[i := row] == desk.rows;
      OfOrderAround(desk.rows, i, row, other);
      OfOrderAround(desk.rows, i, r.value, other);
      if row.orderId == other {
        InsertNeverRaises(base, a, row.discount, b);
        InsertNeverRaises(base, a, r.value.discount, b);
        if !row.discount.approval.Approved? {
          UnapprovedIsNothing(base, a, row.discount, b);
        }
        if verdict == Rejected {
          UnapprovedIsNothing(base, a, r.value.discount, b);
        }
        if row.discount.approval.Approved? && verdict == Approved {
          assert r.value.discount == row.discount;
        }
      }
    }
  }

  /** Updating a discount to a larger value never raises a figure and to a smaller one never lowers it;
      other orders keep theirs. The approval stays, whatever the new value and the limit. */
  lemma UpdateFigure(desk: Desk, id: nat, value: Option<real>, reason: string, actor: Actor, other: string)
    requires other in desk.orders && Subtotal(desk.orders[other]) >= 0.0
    requires Update(desk, id, value, reason, actor).1.Ok?
    ensures var (after, r) := Update(desk, id, value, reason, actor);
            var was := desk.rows[Find(desk, desk.rows, id, actor).value];
            && (value.Some? && value.value >= was.discount.value ==> Figure(after, other) <= Figure(desk, other))
            && (value.Some? && value.value <= was.discount.value ==> Figure(after, other) >= Figure(desk, other))
            && (value.None? || r.value.orderId != other ==> Figure(after, other) == Figure(desk, other))
            && r.value.discount.approval == was.discount.approval && r.value.approvedBy == was.approvedBy
  {
    hide Discounted;
    var (after, r) := Update(desk, id, value, reason, actor);
    var i := Find(desk, desk.rows, id, actor).value;
    var base, row := Subtotal(desk.orders[other]), desk.rows[i];
    var a, b := OfOrder(desk.rows[..i], other), OfOrder(desk.rows[i + 1..], other);
    assert desk.rows[i := row] == desk.rows;
    OfOrderAround(desk.rows, i, row, other);
    OfOrderAround(desk.rows, i, r.value, other);
    if row.orderId == other && value.Some? {
      if value.value >= row.discount.value {
        LargerNeverRaises(base, a, row.discount, value.value, b);
      }
      if value.value <= row.discount.value {
        assert row.discount == r.value.discount.(value := row.discount.value);
        LargerNeverRaises(base, a, r.value.discount, row.discount.value, b);
      }
    }
  }

  /** Removing a discount never lowers any figure; other orders keep theirs. */
  lemma RemoveFigure(desk: Desk, id: nat, reason: string, actor: Actor, other: string)
    requires other in desk.orders && Subtotal(desk.orders[other]) >= 0.0
    ensures var (after, r) := Remove(desk, id, reason, actor);
            && Figure(after, other) >= Figure(desk, other)
            && (r.Err? || r.value.orderId != other ==> Figure(after, other) == Figure(desk, other))
  {
    hide Discounted;
    var (after, r) := Remove(desk, id, reason, actor);
    if r.Ok? {
      var i := Find(desk, desk.rows, id, actor).value;
      var row := desk.rows[i];
      assert desk.rows[i := row] == desk.rows;
      OfOrderAround(desk.rows, i, row, other);
      var a, b := OfOrder(desk.rows[..i], other), OfOrder(desk.rows[i + 1..], other);
      if row.orderId == other {
        InsertNeverRaises(Subtotal(desk.orders[other]), a, row.discount, b);
      } else {
        assert a + [] + b == a + b;
      }
    }
  }

  // ---------- What the calls do to the rows ----------

  /** Ids identify rows. */
  ghost predicate IdsFresh(desk: Desk) {
    && (forall i :: 0 <= i < |desk.rows| ==> desk.rows[i].id < desk.nextId)
    && (forall i, j :: 0 <= i < j < |desk.rows| ==> desk.rows[i].id != desk.rows[j].id)
  }

  /** Row `i` has the id, and its order is of the restaurant. */
  predicate IsRow(desk: Desk, id: nat, restaurantId: string, i: nat) {
    && i < |desk.rows| && desk.rows[i].id == id
    && desk.rows[i].orderId in desk.orders && desk.orders[desk.rows[i].orderId].restaurantId == restaurantId
  }

  lemma FindsRow(desk: Desk, id: nat, actor: Actor)
    requires IdsFresh(desk)
    ensures var found := Find(desk, desk.rows, id, actor);
            && (found.Some? ==> IsRow(desk, id, actor.restaurantId, found.value))
            && (forall i: nat :: IsRow(desk, id, actor.restaurantId, i) ==> found == Some(i))
  {
  }

  /** A new discount needs a reason, an order of the actor's restaurant, and a total that does not become negative;
      then one row is added: approved at once, by its creator, exactly if its percentage of the subtotal is within
      the limit. Otherwise nothing changes. */
  lemma CreateEffect(desk: Desk, orderId: string, kind: Kind, value: real, reason: string, actor: Actor, maxAuto: Option<real>)
    ensures var (after, r) := Create(desk, orderId, kind, value, reason, actor, maxAuto);
            && (r.Ok? <==>
                  && !Text.IsBlank(reason) && orderId in desk.orders && desk.orders[orderId].restaurantId == actor.restaurantId
                  && var subtotal := Subtotal(desk.orders[orderId]);
                     (if kind.Percentage? then Percent(subtotal, value) else value) <= subtotal)
            && (r.Err? ==> after == desk)
            && (r.Ok? ==>
                  && after == desk.(rows := desk.rows + [r.value], nextId := desk.nextId + 1)
                  && r.value == Row(desk.nextId, orderId, Discount(kind, value, r.value.discount.approval), reason,
                                    r.value.approvedBy, actor.sub)
                  && (if r.value.discount.approval == Approved then r.value.approvedBy == Some(actor.sub)
                      else r.value.discount.approval == PendingApproval && r.value.approvedBy.None?)
                  && var (subtotal, limit) := (Subtotal(desk.orders[orderId]), if maxAuto.Some? then maxAuto.value else 10.0);
                     (r.value.discount.approval == Approved <==>
                        if kind.Percentage? then value <= limit
                        else if subtotal > 0.0 then value / subtotal * 100.0 <= limit else 0.0 <= limit))
  {
    hide Percent, Sum, Text.IsBlank;
  }

  /** The rows agree but for row `i`, which is `row` after the call. */
  ghost predicate OnlyRowDiffers(desk: Desk, after: Desk, i: nat, row: Row) {
    && i < |desk.rows| && after == desk.(rows := after.rows) && |after.rows| == |desk.rows| && after.rows[i] == row
    && forall k :: 0 <= k < |desk.rows| && k != i ==> after.rows[k] == desk.rows[k]
  }

  /** An update needs a row of the actor's restaurant and sets its reason and, if given, its value. */
  lemma UpdateEffect(desk: Desk, id: nat, value: Option<real>, reason: string, actor: Actor)
    requires IdsFresh(desk)
    ensures var (after, r) := Update(desk, id, value, reason, actor);
            && (r.Ok? <==> exists i: nat :: IsRow(desk, id, actor.restaurantId, i))
            && (r.Err? ==> after == desk && r.error == DiscountNotFound)
            && forall i: nat :: IsRow(desk, id, actor.restaurantId, i) ==>
                 var was := desk.rows[i];
                 OnlyRowDiffers(desk, after, i, Row(was.id, was.orderId, Discount(was.discount.kind,
                   if value.Some? then value.value else was.discount.value, was.discount.approval), reason, was.approvedBy, was.createdBy))
  {
    FindsRow(desk, id, actor);
  }

  /** A decision needs an admin and a row of the admin's restaurant, and then sets the row's approval to the verdict
      and names the admin; kind, value, reason and creator stay. */
  lemma DecideEffect(desk: Desk, id: nat, verdict: Approval, actor: Actor)
    requires IdsFresh(desk)
    ensures var (after, r) := Decide(desk, id, verdict, actor);
            && (r.Ok? <==> actor.role == Admin && exists i: nat :: IsRow(desk, id, actor.restaurantId, i))
            && (r.Err? ==> after == desk && (r.error == AdminOnly <==> actor.role != Admin))
            && forall i: nat :: actor.role == Admin && IsRow(desk, id, actor.restaurantId, i) ==>
                 var was := desk.rows[i];
                 OnlyRowDiffers(desk, after, i, Row(was.id, was.orderId, Discount(was.discount.kind, was.discount.value, verdict),
                                                    was.reason, Some(actor.sub), was.createdBy))
  {
    FindsRow(desk, id, actor);
  }

  /** A removal needs a reason and a row of the actor's restaurant, and takes the row out. */
  lemma RemoveEffect(desk: Desk, id: nat, reason: string, actor: Actor)
    requires IdsFresh(desk)
    ensures var (after, r) := Remove(desk, id, reason, actor);
            && (r.Ok? <==> !Text.IsBlank(reason) && exists i: nat :: IsRow(desk, id, actor.restaurantId, i))
            && (r.Err? ==> after == desk && (r.error == ReasonRequired <==> Text.IsBlank(reason)))
            && (r.Ok? ==> forall k :: 0 <= k < |after.rows| ==> after.rows[k].id != id)
            && forall i: nat :: !Text.IsBlank(reason) && IsRow(desk, id, actor.restaurantId, i) ==>
                 after == desk.(rows := desk.rows[..i] + desk.rows[i + 1..])
  {
    hide Text.IsBlank;
    FindsRow(desk, id, actor);
  }

  predicate IsOf(row: Row, orderId: string) { row.orderId == orderId }

  /** The discounts of an order are those of its rows and of no others, in their order. */
  lemma {:induction false} OfOrderIs(rows: seq<Row>, orderId: string)
    ensures var kept := Filter(rows, (r: Row) => IsOf(r, orderId));
            |OfOrder(rows, orderId)| == |kept| && forall k :: 0 <= k < |kept| ==> OfOrder(rows, orderId)[k] == kept[k].discount
  {
    if rows != [] {
      OfOrderIs(Front(rows), orderId);
    }
  }

  /** What a decision does to the figure of the discount's order: approved, the discount is counted at its place,
      between those that were there before and after it; rejected, the others are counted without it. */
  lemma DecidedFigure(desk: Desk, id: nat, verdict: Approval, actor: Actor, i: nat)
    requires IdsFresh(desk) && actor.role == Admin && IsRow(desk, id, actor.restaurantId, i)
    requires verdict == Approved || verdict == Rejected
    ensures var (after, orderId) := (Decide(desk, id, verdict, actor).0, desk.rows[i].orderId);
            var (base, a, b) := (Subtotal(desk.orders[orderId]), OfOrder(desk.rows[..i], orderId), OfOrder(desk.rows[i + 1..], orderId));
            var d := Discount(desk.rows[i].discount.kind, desk.rows[i].discount.value, Approved);
            Figure(after, orderId) == if verdict == Approved then Discounted(base, a + [d] + b) else Discounted(base, a + b)
  {
    hide Discounted, Subtotal;
    var row, orderId := desk.rows[i], desk.rows[i].orderId;
    DecideEffect(desk, id, verdict, actor);
    var (base, a, b) := (Subtotal(desk.orders[orderId]), OfOrder(desk.rows[..i], orderId), OfOrder(desk.rows[i + 1..], orderId));
    var decided := Row(row.id, row.orderId, Discount(row.discount.kind, row.discount.value, verdict), row.reason, Some(actor.sub), row.createdBy);
    var after := Decide(desk, id, verdict, actor).0;
    assert after.rows == desk.rows[i := decided];
    OfOrderAround(desk.rows, i, decided, orderId);
    if verdict == Rejected {
      UnapprovedIsNothing(base, a, decided.discount, b);
    }
  }

  // ---------- Who approved what ----------

  datatype Op =
    | CreateOp(orderId: string, kind: Kind, value: real, reason: string, maxAuto: Option<real>)
    | UpdateOp(id: nat, newValue: Option<real>, reason: string)
    | DecideOp(id: nat, verdict: Approval)
    | RemoveOp(id: nat, reason: string)

  datatype Call = Call(actor: Actor, op: Op)

  function Step(desk: Desk, c: Call): Desk {
    match c.op
    case CreateOp(orderId, kind, value, reason, maxAuto) => Create(desk, orderId, kind, value, reason, c.actor, maxAuto).0
    case UpdateOp(id, value, reason) => Update(desk, id, value, reason, c.actor).0
    case DecideOp(id, verdict) => Decide(desk, id, verdict, c.actor).0
    case RemoveOp(id, reason) => Remove(desk, id, reason, c.actor).0
  }

  function Run(desk: Desk, calls: seq<Call>): Desk
  {
    if calls == [] then desk else Step(Run(desk, Front(calls)), Last(calls))
  }

  /** `admins` are the users with the admin role. A row that nobody has decided is pending; an
      approved row names its creator or an admin, a rejected one an admin. */
  predicate RowFits(row: Row, admins: set<string>) {
    && (row.approvedBy.None? <==> row.discount.approval.PendingApproval?)
    && (row.approvedBy.Some? ==>
          row.approvedBy.value in admins || (row.approvedBy.value == row.createdBy && row.discount.approval.Approved?))
  }

  ghost predicate Provenance(desk: Desk, admins: set<string>) {
    forall i :: 0 <= i < |desk.rows| ==> RowFits(desk.rows[i], admins)
  }

  ghost predicate Genuine(calls: seq<Call>, admins: set<string>) {
    forall c :: c in calls ==>
      && (c.actor.role == Admin <==> c.actor.sub in admins)
      && (c.op.DecideOp? ==> c.op.verdict == Approved || c.op.verdict == Rejected)
  }

  lemma StepKeepsProvenance(desk: Desk, c: Call, admins: set<string>)
    requires Provenance(desk, admins) && Genuine([c], admins)
    ensures Provenance(Step(desk, c), admins)
  {
    assert c in [c];
  }

  /** Over every run: an approval names an admin or the discount's own creator, a rejection an admin. */
  lemma {:induction false} RunKeepsProvenance(desk: Desk, calls: seq<Call>, admins: set<string>)
    requires Provenance(desk, admins) && Genuine(calls, admins)
    ensures Provenance(Run(desk, calls), admins)
  {
    if calls != [] {
      assert forall c :: c in Front(calls) ==> c in calls;
      RunKeepsProvenance(desk, Front(calls), admins);
      StepKeepsProvenance(Run(desk, Front(calls)), Last(calls), admins);
    }
  }

  // ---------- What may stand without an admin ----------

  /** Approved, and not by an admin. */
  predicate SelfApproved(row: Row, admins: set<string>) {
    row.discount.approval.Approved? && row.approvedBy.Some? && row.approvedBy.value !in admins
  }

  /** The guard that `create` puts before approving on its own. */
  predicate WithinLimit(order: Order, kind: Kind, value: real, limits: string -> real) {
    PercentValue(Subtotal(order), kind, value) <= limits(order.restaurantId)
  }

  /** Every discount that no admin approved is within the limit of its order's restaurant. */
  ghost predicate Limited(desk: Desk, admins: set<string>, limits: string -> real) {
    forall i :: 0 <= i < |desk.rows| && SelfApproved(desk.rows[i], admins) && desk.rows[i].orderId in desk.orders ==>
      WithinLimit(desk.orders[desk.rows[i].orderId], desk.rows[i].discount.kind, desk.rows[i].discount.value, limits)
  }

  /** The guard in money: for a positive subtotal it bounds what the discount takes off it; for the others a
      fixed amount passes whenever the limit is not negative. */
  lemma WithinLimitIff(order: Order, kind: Kind, value: real, limits: string -> real)
    ensures var (subtotal, limit) := (Subtotal(order), limits(order.restaurantId));
            && (subtotal > 0.0 ==>
                  (WithinLimit(order, kind, value, limits) <==> Amount(subtotal, kind, value) <= Percent(subtotal, limit)))
            && (subtotal <= 0.0 && kind.FixedAmount? ==> (WithinLimit(order, kind, value, limits) <==> limit >= 0.0))
  {
    hide Sum, Percent, Times;
    var subtotal, limit := Subtotal(order), limits(order.restaurantId);
    if subtotal > 0.0 {
      var percent := PercentValue(subtotal, kind, value);
      PercentIsTimes(subtotal, percent);
      PercentIsTimes(subtotal, limit);
      if kind.FixedAmount? {
        Quotient(value, subtotal);
        assert percent / 100.0 == value / subtotal;
      }
      assert Amount(subtotal, kind, value) == Times(subtotal, percent / 100.0);
      if percent <= limit {
        TimesMonotone(percent / 100.0, limit / 100.0, subtotal);
      } else {
        TimesIncreases(limit / 100.0, percent / 100.0, subtotal);
      }
    }
  }

  /** The settings: a discount is created with its restaurant's own limit. */
  ghost predicate LimitsApply(calls: seq<Call>, limits: string -> real) {
    forall c :: c in calls && c.op.CreateOp? ==>
      limits(c.actor.restaurantId) == if c.op.maxAuto.Some? then c.op.maxAuto.value else 10.0
  }

  /** `update` on a discount that no admin approved, to a value that `create` would have left pending. */
  predicate RaisesPastLimit(desk: Desk, c: Call, admins: set<string>, limits: string -> real) {
    && c.op.UpdateOp? && c.op.newValue.Some?
    && Find(desk, desk.rows, c.op.id, c.actor).Some?
    && (var row := desk.rows[Find(desk, desk.rows, c.op.id, c.actor).value];
        SelfApproved(row, admins) && !WithinLimit(desk.orders[row.orderId], row.discount.kind, c.op.newValue.value, limits))
  }

  /** A call keeps every discount that no admin approved within the limit exactly when it is not such an update. */
  lemma StepLimitIff(desk: Desk, c: Call, admins: set<string>, limits: string -> real)
    requires Limited(desk, admins, limits) && Genuine([c], admins) && LimitsApply([c], limits)
    ensures Limited(Step(desk, c), admins, limits) <==> !RaisesPastLimit(desk, c, admins, limits)
  {
    hide PercentValue, Sum, Subtotal, Amount;
    assert c in [c];
    var after := Step(desk, c);
    match c.op
    case CreateOp(_, _, _, _, _) => CreateKeepsLimited(desk, c, admins, limits);
    case DecideOp(_, _) =>
    case RemoveOp(_, _) =>
    case UpdateOp(id, value, _) =>
      var found := Find(desk, desk.rows, id, c.actor);
      if found.Some? {
        assert after.rows[found.value].discount.kind == desk.rows[found.value].discount.kind;
        if RaisesPastLimit(desk, c, admins, limits) {
          assert SelfApproved(after.rows[found.value], admins);
        }
      }
  }

  lemma CreateKeepsLimited(desk: Desk, c: Call, admins: set<string>, limits: string -> real)
    requires Limited(desk, admins, limits) && c.op.CreateOp? && LimitsApply([c], limits)
    ensures Limited(Step(desk, c), admins, limits)
  {
    hide PercentValue, Sum, Subtotal, Amount;
    assert c in [c];
    var after := Step(desk, c);
    assert forall i :: 0 <= i < |desk.rows| ==> after.rows[i] == desk.rows[i];
  }

  /** No update in the run goes past the limit. */
  predicate NeverRaisesPastLimit(desk: Desk, calls: seq<Call>, admins: set<string>, limits: string -> real) {
    calls == [] || (NeverRaisesPastLimit(desk, Front(calls), admins, limits)
                    && !RaisesPastLimit(Run(desk, Front(calls)), Last(calls), admins, limits))
  }

  /** Over every such run, what no admin approved stays within the limit. */
  lemma {:induction false} RunKeepsLimited(desk: Desk, calls: seq<Call>, admins: set<string>, limits: string -> real)
    requires Limited(desk, admins, limits) && NeverRaisesPastLimit(desk, calls, admins, limits)
    requires Genuine(calls, admins) && LimitsApply(calls, limits)
    ensures Limited(Run(desk, calls), admins, limits)
  {
    if calls != [] {
      assert forall c :: c in Front(calls) ==> c in calls;
      assert Last(calls) in calls;
      RunKeepsLimited(desk, Front(calls), admins, limits);
      StepLimitIff(Run(desk, Front(calls)), Last(calls), admins, limits);
    }
  }

  /** What is stored after the first of the two calls of UpdateEscapesLimit. */
  lemma FivePercentApproved(actor: Actor, order: Order, orderId: string, reason: string)
    requires actor.restaurantId == order.restaurantId && Subtotal(order) >= 0.0 && !Text.IsBlank(reason)
    ensures var start := Desk(map[orderId := order], [], 0);
            Create(start, orderId, Percentage, 5.0, reason, actor, None).0 ==
            start.(rows := [Row(0, orderId, Discount(Percentage, 5.0, Approved), reason, Some(actor.sub), actor.sub)], nextId := 1)
  {
    hide Sum, Text.IsBlank;
    assert Subtotal(order) - Percent(Subtotal(order), 5.0) >= 0.0;
  }

  /** The first of two calls creates a discount of 5 percent under a limit of 10, the second raises it to 90:
      it stands approved by its creator, who is no admin. */
  lemma UpdateEscapesLimit(actor: Actor, order: Order, orderId: string, reason: string, limits: string -> real)
    requires actor.role != Admin && actor.restaurantId == order.restaurantId && !Text.IsBlank(reason)
    requires Subtotal(order) >= 0.0 && limits(order.restaurantId) == 10.0
    ensures var calls := [Call(actor, CreateOp(orderId, Percentage, 5.0, reason, None)),
                          Call(actor, UpdateOp(0, Some(90.0), reason))];
            var after := Run(Desk(map[orderId := order], [], 0), calls);
            && Genuine(calls, {}) && LimitsApply(calls, limits)
            && after.rows == [Row(0, orderId, Discount(Percentage, 90.0, Approved), reason, Some(actor.sub), actor.sub)]
            && Provenance(after, {}) && !Limited(after, {}, limits)
  {
    hide Create, Sum, Subtotal, Text.IsBlank;
    var create, update := Call(actor, CreateOp(orderId, Percentage, 5.0, reason, None)), Call(actor, UpdateOp(0, Some(90.0), reason));
    var start := Desk(map[orderId := order], [], 0);
    var made := Row(0, orderId, Discount(Percentage, 5.0, Approved), reason, Some(actor.sub), actor.sub);
    var raised := made.(discount := Discount(Percentage, 90.0, Approved));
    FivePercentApproved(actor, order, orderId, reason);
    assert Front([create, update]) == [create] && Front([create]) == [];
    var desk := Run(start, [create]);
    assert Run(start, []) == start && Last([create]) == create;
    assert desk == Create(start, orderId, Percentage, 5.0, reason, actor, None).0;
    assert desk == start.(rows := [made], nextId := 1);
    assert Front([made]) == [];
    assert Find(desk, [made], 0, actor) == Some(0);
    var after := Run(start, [create, update]);
    assert after.rows[0] == raised && |after.rows| == 1;
    assert SelfApproved(raised, {}) && !WithinLimit(order, Percentage, 90.0, limits);
  }

  // ---------- Does an approved discount still have the value that was approved? ----------

  /** The value of every discount when it was last approved, on creation or by an admin. */
  function Approvals(desk: Desk, at: map<nat, real>, c: Call): map<nat, real> {
    match c.op
    case CreateOp(orderId, kind, value, reason, maxAuto) =>
      var r := Create(desk, orderId, kind, value, reason, c.actor, maxAuto).1;
      if r.Ok? && r.value.discount.approval.Approved? then at[r.value.id := r.value.discount.value] else at
    case DecideOp(id, verdict) =>
      var r := Decide(desk, id, verdict, c.actor).1;
      if r.Ok? && verdict.Approved? then at[r.value.id := r.value.discount.value] else at
    case _ => at
  }

  predicate StillAsApproved(row: Row, at: map<nat, real>) {
    row.discount.approval.Approved? ==> row.id in at && at[row.id] == row.discount.value
  }

  ghost predicate AsApproved(desk: Desk, at: map<nat, real>) {
    forall i :: 0 <= i < |desk.rows| ==> StillAsApproved(desk.rows[i], at)
  }

  /** `update` on an approved discount, by whomever, to another value. */
  predicate ChangesApproved(desk: Desk, c: Call) {
    && c.op.UpdateOp? && c.op.newValue.Some?
    && Find(desk, desk.rows, c.op.id, c.actor).Some?
    && (var row := desk.rows[Find(desk, desk.rows, c.op.id, c.actor).value];
        row.discount.approval.Approved? && row.discount.value != c.op.newValue.value)
  }

  /** A call leaves every approved discount with the value that was approved exactly when it is not such an
      update, whoever approved it. */
  lemma StepAsApprovedIff(desk: Desk, at: map<nat, real>, c: Call)
    requires IdsFresh(desk) && AsApproved(desk, at)
    ensures IdsFresh(Step(desk, c))
    ensures AsApproved(Step(desk, c), Approvals(desk, at, c)) <==> !ChangesApproved(desk, c)
  {
    hide Create, Decide, IdsFresh, AsApproved, OwnedOrder;
    match c.op
    case CreateOp(_, _, _, _, _) => CreateAsApproved(desk, at, c);
    case RemoveOp(_, _) => RemoveAsApproved(desk, at, c);
    case DecideOp(_, _) => DecideAsApproved(desk, at, c);
    case UpdateOp(_, _, _) => UpdateAsApproved(desk, at, c);
  }

  lemma CreateAsApproved(desk: Desk, at: map<nat, real>, c: Call)
    requires IdsFresh(desk) && AsApproved(desk, at) && c.op.CreateOp?
    ensures IdsFresh(Step(desk, c)) && AsApproved(Step(desk, c), Approvals(desk, at, c))
  {
    hide PercentValue, Subtotal, Amount, Text.IsBlank, OwnedOrder;
    assert forall i :: 0 <= i < |desk.rows| ==> Step(desk, c).rows[i] == desk.rows[i];
  }

  lemma RemoveAsApproved(desk: Desk, at: map<nat, real>, c: Call)
    requires IdsFresh(desk) && AsApproved(desk, at) && c.op.RemoveOp?
    ensures IdsFresh(Step(desk, c)) && AsApproved(Step(desk, c), at)
  {
    hide Text.IsBlank, OwnedOrder;
  }

  lemma UpdateAsApproved(desk: Desk, at: map<nat, real>, c: Call)
    requires IdsFresh(desk) && AsApproved(desk, at) && c.op.UpdateOp?
    ensures IdsFresh(Step(desk, c)) && (AsApproved(Step(desk, c), at) <==> !ChangesApproved(desk, c))
  {
    hide OwnedOrder;
    var after, found := Step(desk, c), Find(desk, desk.rows, c.op.id, c.actor);
    if found.Some? {
      var i := found.value;
      assert after.rows == desk.rows[i := after.rows[i]] && after.rows[i].id == desk.rows[i].id;
      assert StillAsApproved(desk.rows[i], at);
      hide Step, Find;
      assert AsApproved(after, at) <==> StillAsApproved(after.rows[i], at);
    }
  }

  lemma DecideAsApproved(desk: Desk, at: map<nat, real>, c: Call)
    requires IdsFresh(desk) && AsApproved(desk, at) && c.op.DecideOp?
    ensures IdsFresh(Step(desk, c)) && AsApproved(Step(desk, c), Approvals(desk, at, c))
  {
    hide OwnedOrder;
    var found := Find(desk, desk.rows, c.op.id, c.actor);
    if c.actor.role == Admin && found.Some? {
      var after := Step(desk, c);
      forall i | 0 <= i < |desk.rows| && i != found.value
        ensures after.rows[i] == desk.rows[i] && desk.rows[i].id != desk.rows[found.value].id
      {
      }
    }
  }

  /** The desk after the calls, with the values at approval. */
  function Audited(desk: Desk, at: map<nat, real>, calls: seq<Call>): (Desk, map<nat, real>) {
    if calls == [] then (desk, at)
    else
      var (d, a) := Audited(desk, at, Front(calls));
      (Step(d, Last(calls)), Approvals(d, a, Last(calls)))
  }

  predicate NeverChangesApproved(desk: Desk, at: map<nat, real>, calls: seq<Call>) {
    calls == [] || (NeverChangesApproved(desk, at, Front(calls)) && !ChangesApproved(Audited(desk, at, Front(calls)).0, Last(calls)))
  }

  lemma {:induction false} RunAsApproved(desk: Desk, at: map<nat, real>, calls: seq<Call>)
    requires IdsFresh(desk) && AsApproved(desk, at) && NeverChangesApproved(desk, at, calls)
    ensures var (after, approved) := Audited(desk, at, calls);
            after == Run(desk, calls) && IdsFresh(after) && AsApproved(after, approved)
  {
    if calls != [] {
      hide Step, IdsFresh, AsApproved;
      RunAsApproved(desk, at, Front(calls));
      var (d, a) := Audited(desk, at, Front(calls));
      StepAsApprovedIff(d, a, Last(calls));
    }
  }
}

/** The service object over its discount table. */
module DiscountObjects {
  import opened Discounts
  import opened Options
  import opened Reals
  import opened Sequences
  import opened Spec = DiscountDesk
  import Text

  class DiscountsService {
    const orders: map<string, Order>
    var rows: seq<Row>
    var nextId: nat

    constructor (orders: map<string, Order>)
      ensures State() == Desk(orders, [], 0)
    {
      this.orders := orders;
      rows, nextId := [], 0;
    }

    function State(): Desk
      reads this
    {
      Desk(orders, rows, nextId)
    }

    method ResolveOrderSubtotal(orderId: string) returns (subtotal: real)
      requires orderId in orders
      ensures subtotal == Subtotal(orders[orderId])
    {
      var items := orders[orderId].items;
      subtotal := 0.0;
      for i := 0 to |items|
        invariant subtotal == Sum(items[..i], ItemTotal)
      {
        SumSnoc(items[..i], items[i], ItemTotal);
        assert items[..i + 1] == items[..i] + [items[i]];
        subtotal := subtotal + items[i].price * (items[i].quantity as real);
      }
      assert items[..|items|] == items;
    }

    method Create(orderId: string, kind: Kind, value: real, reason: string, actor: Actor, maxAuto: Option<real>)
      returns (r: Result<Row, DeskError>)
      modifies this
      ensures (State(), r) == Spec.Create(old(State()), orderId, kind, value, reason, actor, maxAuto)
    {
      if Text.IsBlank(reason) {
        return Err(ReasonRequired);
      }
      if orderId !in orders || orders[orderId].restaurantId != actor.restaurantId {
        return Err(OrderNotFound);
      }
      var subtotal := ResolveOrderSubtotal(orderId);
      var percentValue := 0.0;
      if kind == Percentage {
        percentValue := value;
      } else if subtotal > 0.0 {
        percentValue := value / subtotal * 100.0;
      }
      var requiresApproval := percentValue > (if maxAuto.Some? then maxAuto.value else 10.0);
      var discountAmount := if kind == Percentage then Percent(subtotal, value) else value;
      if subtotal - discountAmount < 0.0 {
        return Err(MakesTotalNegative);
      }
      var row := Row(nextId, orderId, Discount(kind, value, if requiresApproval then PendingApproval else Approved),
                     reason, if requiresApproval then None else Some(actor.sub), actor.sub);
      rows := rows + [row];
      nextId := nextId + 1;
      r := Ok(row);
    }

    method Update(id: nat, value: Option<real>, reason: string, actor: Actor) returns (r: Result<Row, DeskError>)
      modifies this
      ensures (State(), r) == Spec.Update(old(State()), id, value, reason, actor)
    {
      var found := Find(State(), rows, id, actor);
      if found.None? {
        return Err(DiscountNotFound);
      }
      var row := rows[found.value].(reason := reason);
      if value.Some? {
        row := row.(discount := row.discount.(value := value.value));
      }
      rows := rows[found.value := row];
      r := Ok(row);
    }

    method Approve(id: nat, actor: Actor) returns (r: Result<Row, DeskError>)
      modifies this
      ensures (State(), r) == Decide(old(State()), id, Approved, actor)
    {
      if actor.role != Admin {
        return Err(AdminOnly);
      }
      var found := Find(State(), rows, id, actor);
      if found.None? {
        return Err(DiscountNotFound);
      }
      var row := rows[found.value];
      row := row.(discount := row.discount.(approval := Approved), approvedBy := Some(actor.sub));
      rows := rows[found.value := row];
      r := Ok(row);
    }

    method Reject(id: nat, actor: Actor) returns (r: Result<Row, DeskError>)
      modifies this
      ensures (State(), r) == Decide(old(State()), id, Rejected, actor)
    {
      if actor.role != Admin {
        return Err(AdminOnly);
      }
      var found := Find(State(), rows, id, actor);
      if found.None? {
        return Err(DiscountNotFound);
      }
      var row := rows[found.value];
      row := row.(discount := row.discount.(approval := Rejected), approvedBy := Some(actor.sub));
      rows := rows[found.value := row];
      r := Ok(row);
    }

    method Remove(id: nat, reason: string, actor: Actor) returns (r: Result<Row, DeskError>)
      modifies this
      ensures (State(), r) == Spec.Remove(old(State()), id, reason, actor)
    {
      if Text.IsBlank(reason) {
        return Err(ReasonRequired);
      }
      var found := Find(State(), rows, id, actor);
      if found.None? {
        return Err(DiscountNotFound);
      }
      r := Ok(rows[found.value]);
      rows := Without(rows, found.value);
    }
  }
}
