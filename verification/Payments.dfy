/**
 The payment ledger of backend/src/modules/payments/payments.service.ts. The payments table is a
 sequence whose index is the primary key; rows are never deleted.
 */
module Payments {
  import opened Options
  import opened Reals
  import opened Sequences
  import Text

  datatype Method = Cash | Card | OtherMethod
  datatype Status = Pending | Paid | PartiallyRefunded | Refunded | Cancelled

  datatype Payment = Payment(orderId: string, amount: real, paymentMethod: Method, status: Status,
                             refundedAmount: real, remainingAmount: real)

  /** `orders` maps an order to its restaurant. */
  datatype Ledger = Ledger(orders: map<string, string>, rows: seq<Payment>)

  datatype PayError = ReasonRequired | OrderNotFound | PaymentNotFound | CancelledPayment | ExceedsRemaining | FullyRefunded

  type Outcome = Result<Payment, PayError>

  predicate Owned(l: Ledger, orderId: string, restaurant: string) {
    orderId in l.orders && l.orders[orderId] == restaurant
  }

  /** `requireOwnedPayment` */
  predicate Found(l: Ledger, id: nat, restaurant: string) {
    id < |l.rows| && Owned(l, l.rows[id].orderId, restaurant)
  }

  function Put(l: Ledger, id: nat, p: Payment): (Ledger, Outcome)
    requires id < |l.rows|
  {
    (l.(rows := l.rows[id := p]), Ok(p))
  }

  function Create(l: Ledger, orderId: string, amount: real, paymentMethod: Method, reason: string, restaurant: string): (Ledger, Outcome) {
    if Text.IsBlank(reason) then (l, Err(ReasonRequired))
    else if !Owned(l, orderId, restaurant) then (l, Err(OrderNotFound))
    else
      var p := Payment(orderId, amount, paymentMethod, Paid, 0.0, amount);
      (l.(rows := l.rows + [p]), Ok(p))
  }

  function Update(l: Ledger, id: nat, amount: Option<real>, restaurant: string): (Ledger, Outcome) {
    if !Found(l, id, restaurant) then (l, Err(PaymentNotFound))
    else if l.rows[id].status.Cancelled? then (l, Err(CancelledPayment))
    else
      var p := l.rows[id];
      Put(l, id, if amount.Some? then p.(amount := amount.value, remainingAmount := amount.value - p.refundedAmount) else p)
  }

  function Cancel(l: Ledger, id: nat, reason: string, restaurant: string): (Ledger, Outcome) {
    if Text.IsBlank(reason) then (l, Err(ReasonRequired))
    else if !Found(l, id, restaurant) then (l, Err(PaymentNotFound))
    else Put(l, id, l.rows[id].(status := Cancelled))
  }

  function Refund(l: Ledger, id: nat, amount: real, reason: string, restaurant: string): (Ledger, Outcome) {
    if Text.IsBlank(reason) then (l, Err(ReasonRequired))
    else if !Found(l, id, restaurant) then (l, Err(PaymentNotFound))
    else if amount > l.rows[id].remainingAmount then (l, Err(ExceedsRemaining))
    else
      var p := l.rows[id];
      var refunded := p.refundedAmount + amount;
      var remaining := p.amount - refunded;
      Put(l, id, p.(refundedAmount := refunded, remainingAmount := remaining,
                    status := if remaining <= 0.0 then Refunded else PartiallyRefunded))
  }

  function ChangeMethod(l: Ledger, id: nat, paymentMethod: Method, reason: string, restaurant: string): (Ledger, Outcome) {
    if Text.IsBlank(reason) then (l, Err(ReasonRequired))
    else if !Found(l, id, restaurant) then (l, Err(PaymentNotFound))
    else if l.rows[id].status.Refunded? then (l, Err(FullyRefunded))
    else Put(l, id, l.rows[id].(paymentMethod := paymentMethod))
  }

  // ---------- The order's figures ----------

  function Net(orderId: string): Payment -> real {
    (p: Payment) =>
      if p.orderId == orderId && !p.status.Cancelled? then Max(p.amount - p.refundedAmount, 0.0) else 0.0
  }

  function Returned(orderId: string): Payment -> real {
    (p: Payment) => if p.orderId == orderId then p.refundedAmount else 0.0
  }

  /** `paidAmount` and `refundedAmount` of `summarizeByOrder`. */
  function PaidAmount(rows: seq<Payment>, orderId: string): real { Sum(rows, Net(orderId)) }

  function RefundedAmount(rows: seq<Payment>, orderId: string): real { Sum(rows, Returned(orderId)) }

  /** The dashboard's `paidAmount`: the same rows, without the clamp. */
  function Unclamped(orderId: string): Payment -> real {
    (p: Payment) => if p.orderId == orderId && !p.status.Cancelled? then p.amount - p.refundedAmount else 0.0
  }

  function DashboardPaid(rows: seq<Payment>, orderId: string): real { Sum(rows, Unclamped(orderId)) }

  /** A payment whose amount was set below what it had already refunded. */
  predicate Overdrawn(p: Payment) {
    !p.status.Cancelled? && p.amount < p.refundedAmount
  }

  /** The dashboard never shows more as paid than the ledger, and the two agree exactly when no
      live payment of the order is overdrawn. */
  lemma {:induction false} DashboardPaidIff(rows: seq<Payment>, orderId: string)
    ensures DashboardPaid(rows, orderId) <= PaidAmount(rows, orderId)
    ensures DashboardPaid(rows, orderId) == PaidAmount(rows, orderId) <==>
              forall i :: 0 <= i < |rows| && rows[i].orderId == orderId ==> !Overdrawn(rows[i])
  {
    if rows != [] {
      var front := Front(rows);
      DashboardPaidIff(front, orderId);
      assert forall i :: 0 <= i < |front| ==> front[i] == rows[i];
      assert Last(rows) == rows[|rows| - 1];
    }
  }

  // ---------- Single operations ----------

  /** An accepted refund of `x` on a live payment moves exactly `x` from paid to refunded, for the
      payment's order and no other. */
  lemma RefundMoves(l: Ledger, id: nat, x: real, reason: string, restaurant: string, orderId: string)
    requires Refund(l, id, x, reason, restaurant).1.Ok? && x > 0.0
    requires !l.rows[id].status.Cancelled? && l.rows[id].remainingAmount == l.rows[id].amount - l.rows[id].refundedAmount
    ensures var after := Refund(l, id, x, reason, restaurant).0.rows;
            var moved := if l.rows[id].orderId == orderId then x else 0.0;
            && PaidAmount(after, orderId) == PaidAmount(l.rows, orderId) - moved
            && RefundedAmount(after, orderId) == RefundedAmount(l.rows, orderId) + moved
  {
    var p := Refund(l, id, x, reason, restaurant).1.value;
    SumUpdate(l.rows, id, p, Net(orderId));
    SumUpdate(l.rows, id, p, Returned(orderId));
  }

  /** Paid plus refunded survives a refund exactly when the payment was not cancelled: refunding a
      cancelled payment brings it back to life. */
  lemma RefundConservesIff(l: Ledger, id: nat, x: real, reason: string, restaurant: string)
    requires Refund(l, id, x, reason, restaurant).1.Ok? && x > 0.0
    requires l.rows[id].remainingAmount == l.rows[id].amount - l.rows[id].refundedAmount
    ensures var (after, orderId) := (Refund(l, id, x, reason, restaurant).0.rows, l.rows[id].orderId);
            (PaidAmount(after, orderId) + RefundedAmount(after, orderId) ==
             PaidAmount(l.rows, orderId) + RefundedAmount(l.rows, orderId)) <==> !l.rows[id].status.Cancelled?
  {
    var p, orderId := Refund(l, id, x, reason, restaurant).1.value, l.rows[id].orderId;
    SumUpdate(l.rows, id, p, Net(orderId));
    SumUpdate(l.rows, id, p, Returned(orderId));
  }

  /** Cancelling a live payment lowers its order's paid amount by the payment's remaining amount. */
  lemma CancelLowers(l: Ledger, id: nat, reason: string, restaurant: string, orderId: string)
    requires Cancel(l, id, reason, restaurant).1.Ok? && !l.rows[id].status.Cancelled?
    requires l.rows[id].remainingAmount == l.rows[id].amount - l.rows[id].refundedAmount >= 0.0
    ensures var after := Cancel(l, id, reason, restaurant).0.rows;
            && PaidAmount(after, orderId) == PaidAmount(l.rows, orderId) - (if l.rows[id].orderId == orderId then l.rows[id].remainingAmount else 0.0)
            && RefundedAmount(after, orderId) == RefundedAmount(l.rows, orderId)
  {
    var p := Cancel(l, id, reason, restaurant).1.value;
    SumUpdate(l.rows, id, p, Net(orderId));
    SumUpdate(l.rows, id, p, Returned(orderId));
  }

  /** A new payment raises its order's paid amount by its amount. */
  lemma CreateRaises(l: Ledger, orderId: string, amount: real, paymentMethod: Method, reason: string, restaurant: string, other: string)
    requires Create(l, orderId, amount, paymentMethod, reason, restaurant).1.Ok? && amount >= 0.0
    ensures var after := Create(l, orderId, amount, paymentMethod, reason, restaurant).0.rows;
            && PaidAmount(after, other) == PaidAmount(l.rows, other) + (if other == orderId then amount else 0.0)
            && RefundedAmount(after, other) == RefundedAmount(l.rows, other)
  {
    var p := Create(l, orderId, amount, paymentMethod, reason, restaurant).1.value;
    SumSnoc(l.rows, p, Net(other));
    SumSnoc(l.rows, p, Returned(other));
  }

  // ---------- Runs ----------

  datatype Op =
    | CreateOp(orderId: string, amount: real, paymentMethod: Method, reason: string)
    | UpdateOp(id: nat, newAmount: Option<real>)
    | CancelOp(id: nat, reason: string)
    | RefundOp(id: nat, refund: real, reason: string)
    | ChangeMethodOp(id: nat, newMethod: Method, reason: string)

  datatype Call = Call(restaurant: string, op: Op)

  function Step(l: Ledger, c: Call): Ledger {
    match c.op
    case CreateOp(orderId, amount, paymentMethod, reason) => Create(l, orderId, amount, paymentMethod, reason, c.restaurant).0
    case UpdateOp(id, amount) => Update(l, id, amount, c.restaurant).0
    case CancelOp(id, reason) => Cancel(l, id, reason, c.restaurant).0
    case RefundOp(id, amount, reason) => Refund(l, id, amount, reason, c.restaurant).0
    case ChangeMethodOp(id, paymentMethod, reason) => ChangeMethod(l, id, paymentMethod, reason, c.restaurant).0
  }

  function Run(l: Ledger, calls: seq<Call>): Ledger
  {
    if calls == [] then l else Step(Run(l, Front(calls)), Last(calls))
  }

  /** The amounts that the input validators admit. */
  predicate Validated(c: Call) {
    match c.op
    case CreateOp(_, amount, _, _) => amount >= 0.0
    case UpdateOp(_, amount) => amount.Some? ==> amount.value >= 0.0
    case RefundOp(_, amount, _) => amount > 0.0
    case _ => true
  }

  ghost predicate Balanced(l: Ledger) {
    forall i :: 0 <= i < |l.rows| ==> l.rows[i].remainingAmount == l.rows[i].amount - l.rows[i].refundedAmount
  }

  /** Over every run: each payment's remaining amount is its amount less what was refunded, and what
      was refunded never goes down. */
  lemma {:induction false} RunKeepsBalanced(l: Ledger, calls: seq<Call>)
    requires Balanced(l) && forall c :: c in calls ==> Validated(c)
    ensures Balanced(Run(l, calls))
    ensures |l.rows| <= |Run(l, calls).rows|
    ensures forall i :: 0 <= i < |l.rows| ==>
      Run(l, calls).rows[i].refundedAmount >= l.rows[i].refundedAmount && Run(l, calls).rows[i].orderId == l.rows[i].orderId
  {
    if calls != [] {
      hide Step, Validated, Balanced;
      assert forall c :: c in Front(calls) ==> c in calls;
      assert Last(calls) in calls;
      RunKeepsBalanced(l, Front(calls));
      StepKeepsBalanced(Run(l, Front(calls)), Last(calls));
    }
  }

  lemma StepKeepsBalanced(l: Ledger, c: Call)
    requires Balanced(l) && Validated(c)
    ensures Balanced(Step(l, c)) && |l.rows| <= |Step(l, c).rows|
    ensures forall i :: 0 <= i < |l.rows| ==>
      Step(l, c).rows[i].refundedAmount >= l.rows[i].refundedAmount && Step(l, c).rows[i].orderId == l.rows[i].orderId
  {
    hide Text.IsBlank;
  }

  ghost predicate WithinAmounts(l: Ledger) {
    forall i :: 0 <= i < |l.rows| ==> 0.0 <= l.rows[i].refundedAmount <= l.rows[i].amount
  }

  /** The one call that can take a refunded amount out of its payment's amount. */
  predicate LowersBelowRefunded(l: Ledger, c: Call) {
    && c.op.UpdateOp? && c.op.newAmount.Some? && Found(l, c.op.id, c.restaurant)
    && !l.rows[c.op.id].status.Cancelled? && c.op.newAmount.value < l.rows[c.op.id].refundedAmount
  }

  /** Refunded amounts stay within their payments exactly when the call is not such an update. */
  lemma StepWithinIff(l: Ledger, c: Call)
    requires Balanced(l) && WithinAmounts(l) && Validated(c)
    ensures WithinAmounts(Step(l, c)) <==> !LowersBelowRefunded(l, c)
  {
    if LowersBelowRefunded(l, c) {
      assert Step(l, c).rows[c.op.id].refundedAmount > Step(l, c).rows[c.op.id].amount;
    }
  }

  /** No call of the run lowers an amount below what was refunded. */
  predicate NeverLowersBelow(l: Ledger, calls: seq<Call>) {
    calls == [] || (NeverLowersBelow(l, Front(calls)) && !LowersBelowRefunded(Run(l, Front(calls)), Last(calls)))
  }

  lemma {:induction false} RunWithin(l: Ledger, calls: seq<Call>)
    requires Balanced(l) && WithinAmounts(l) && NeverLowersBelow(l, calls)
    requires forall c :: c in calls ==> Validated(c)
    ensures WithinAmounts(Run(l, calls))
  {
    if calls != [] {
      assert forall c :: c in Front(calls) ==> c in calls;
      RunWithin(l, Front(calls));
      RunKeepsBalanced(l, Front(calls));
      StepWithinIff(Run(l, Front(calls)), Last(calls));
    }
  }

  /** The order whose figures a call may change. */
  function ChargedOrder(l: Ledger, c: Call): Option<string> {
    match c.op
    case CreateOp(orderId, _, _, _) => Some(orderId)
    case UpdateOp(id, _) => OrderOf(l, id)
    case CancelOp(id, _) => OrderOf(l, id)
    case RefundOp(id, _, _) => OrderOf(l, id)
    case ChangeMethodOp(_, _, _) => None
  }

  function OrderOf(l: Ledger, id: nat): Option<string> { if id < |l.rows| then Some(l.rows[id].orderId) else None }

  /** A call leaves the figures of all other orders as they are, and changing the method those of all orders. */
  lemma StepFrame(l: Ledger, c: Call, orderId: string)
    requires ChargedOrder(l, c) != Some(orderId)
    ensures PaidAmount(Step(l, c).rows, orderId) == PaidAmount(l.rows, orderId)
    ensures RefundedAmount(Step(l, c).rows, orderId) == RefundedAmount(l.rows, orderId)
  {
    hide Text.IsBlank, PaidAmount, RefundedAmount;
    var after := Step(l, c).rows;
    if |after| > |l.rows| {
      RowAdded(l.rows, Last(after), orderId);
    } else if after != l.rows {
      var id := c.op.id;
      RowReplaced(l.rows, id, after[id], orderId);
    }
  }

  lemma RowAdded(rows: seq<Payment>, p: Payment, orderId: string)
    requires p.orderId != orderId
    ensures PaidAmount(rows + [p], orderId) == PaidAmount(rows, orderId)
    ensures RefundedAmount(rows + [p], orderId) == RefundedAmount(rows, orderId)
  {
    SumSnoc(rows, p, Net(orderId));
    SumSnoc(rows, p, Returned(orderId));
  }

  /** A row of another order, or one that keeps its figures. */
  lemma RowReplaced(rows: seq<Payment>, id: nat, p: Payment, orderId: string)
    requires id < |rows| && p.orderId == rows[id].orderId
    requires p.orderId != orderId || p == rows[id].(paymentMethod := p.paymentMethod)
    ensures PaidAmount(rows[id := p], orderId) == PaidAmount(rows, orderId)
    ensures RefundedAmount(rows[id := p], orderId) == RefundedAmount(rows, orderId)
  {
    SumUpdate(rows, id, p, Net(orderId));
    SumUpdate(rows, id, p, Returned(orderId));
  }

  /** What is left of a payment, whatever its status. */
  function Left(p: Payment): real { Max(p.amount - p.refundedAmount, 0.0) }

  /** By how much a call changes what an order has paid. */
  function PaidChange(l: Ledger, c: Call, orderId: string): real {
    match c.op
    case CreateOp(id, amount, paymentMethod, reason) =>
      if Create(l, id, amount, paymentMethod, reason, c.restaurant).1.Ok? && id == orderId then Max(amount, 0.0) else 0.0
    case UpdateOp(id, amount) =>
      if Update(l, id, amount, c.restaurant).1.Ok? && l.rows[id].orderId == orderId && amount.Some?
      then Max(amount.value - l.rows[id].refundedAmount, 0.0) - Left(l.rows[id]) else 0.0
    case CancelOp(id, reason) =>
      if Cancel(l, id, reason, c.restaurant).1.Ok? && l.rows[id].orderId == orderId && !l.rows[id].status.Cancelled?
      then -Left(l.rows[id]) else 0.0
    case RefundOp(id, amount, reason) =>
      if Refund(l, id, amount, reason, c.restaurant).1.Ok? && l.rows[id].orderId == orderId
      then Max(l.rows[id].amount - l.rows[id].refundedAmount - amount, 0.0) - (if l.rows[id].status.Cancelled? then 0.0 else Left(l.rows[id]))
      else 0.0
    case ChangeMethodOp(_, _, _) => 0.0
  }

  /** Every call changes what every order has paid by just that, and no order's restaurant. */
  lemma PaidChanges(l: Ledger, c: Call, orderId: string)
    ensures PaidAmount(Step(l, c).rows, orderId) == PaidAmount(l.rows, orderId) + PaidChange(l, c, orderId)
    ensures Step(l, c).orders == l.orders
  {
    hide Text.IsBlank, PaidAmount;
    var after := Step(l, c).rows;
    if |after| > |l.rows| {
      PaidWithRow(l.rows, Last(after), orderId);
    } else if after != l.rows {
      PaidWithChangedRow(l.rows, c.op.id, after[c.op.id], orderId);
    }
  }

  lemma PaidWithRow(rows: seq<Payment>, p: Payment, orderId: string)
    ensures PaidAmount(rows + [p], orderId) == PaidAmount(rows, orderId) + Net(orderId)(p)
  {
    SumSnoc(rows, p, Net(orderId));
  }

  lemma PaidWithChangedRow(rows: seq<Payment>, id: nat, p: Payment, orderId: string)
    requires id < |rows|
    ensures PaidAmount(rows[id := p], orderId) == PaidAmount(rows, orderId) - Net(orderId)(rows[id]) + Net(orderId)(p)
  {
    SumUpdate(rows, id, p, Net(orderId));
  }

  /** Row `id` exists and its order is of the restaurant. */
  predicate IsRow(l: Ledger, id: nat, restaurant: string) {
    id < |l.rows| && l.rows[id].orderId in l.orders && l.orders[l.rows[id].orderId] == restaurant
  }

  /** When a call is accepted. A cancelled payment can be refunded but not updated, a fully refunded one not moved to
      another method. */
  predicate Accepted(l: Ledger, c: Call) {
    match c.op
    case CreateOp(orderId, _, _, reason) =>
      !Text.IsBlank(reason) && orderId in l.orders && l.orders[orderId] == c.restaurant
    case UpdateOp(id, _) => IsRow(l, id, c.restaurant) && l.rows[id].status != Cancelled
    case CancelOp(id, reason) => !Text.IsBlank(reason) && IsRow(l, id, c.restaurant)
    case RefundOp(id, amount, reason) =>
      !Text.IsBlank(reason) && IsRow(l, id, c.restaurant) && amount <= l.rows[id].remainingAmount
    case ChangeMethodOp(id, _, reason) => !Text.IsBlank(reason) && IsRow(l, id, c.restaurant) && l.rows[id].status != Refunded
  }

  /** The row that an accepted call writes. */
  predicate Writes(l: Ledger, c: Call, p: Payment)
    requires Accepted(l, c)
  {
    match c.op
    case CreateOp(orderId, amount, paymentMethod, _) => p == Payment(orderId, amount, paymentMethod, Paid, 0.0, amount)
    case UpdateOp(id, amount) =>
      var q := l.rows[id];
      && p == Payment(q.orderId, p.amount, q.paymentMethod, q.status, q.refundedAmount, p.remainingAmount)
      && (if amount.Some? then p.amount == amount.value && p.remainingAmount + q.refundedAmount == amount.value
          else p.amount == q.amount && p.remainingAmount == q.remainingAmount)
    case CancelOp(id, _) =>
      var q := l.rows[id];
      p == Payment(q.orderId, q.amount, q.paymentMethod, Cancelled, q.refundedAmount, q.remainingAmount)
    case RefundOp(id, amount, _) =>
      var q := l.rows[id];
      && p == Payment(q.orderId, q.amount, q.paymentMethod, p.status, q.refundedAmount + amount, p.remainingAmount)
      && p.remainingAmount + p.refundedAmount == q.amount
      && p.status == (if p.refundedAmount >= q.amount then Refunded else PartiallyRefunded)
    case ChangeMethodOp(id, paymentMethod, _) =>
      var q := l.rows[id];
      p == Payment(q.orderId, q.amount, paymentMethod, q.status, q.refundedAmount, q.remainingAmount)
  }

  /** What a call answers. */
  function Answer(l: Ledger, c: Call): Outcome {
    match c.op
    case CreateOp(orderId, amount, paymentMethod, reason) => Create(l, orderId, amount, paymentMethod, reason, c.restaurant).1
    case UpdateOp(id, amount) => Update(l, id, amount, c.restaurant).1
    case CancelOp(id, reason) => Cancel(l, id, reason, c.restaurant).1
    case RefundOp(id, amount, reason) => Refund(l, id, amount, reason, c.restaurant).1
    case ChangeMethodOp(id, paymentMethod, reason) => ChangeMethod(l, id, paymentMethod, reason, c.restaurant).1
  }

  /** A call answers with its row exactly if it is accepted. */
  lemma AnswersIff(l: Ledger, c: Call)
    ensures Answer(l, c).Ok? <==> Accepted(l, c)
    ensures Answer(l, c).Ok? ==> Writes(l, c, Answer(l, c).value) && Answer(l, c).value in Step(l, c).rows
  {
    hide Text.IsBlank;
    if Answer(l, c).Ok? {
      var id := if c.op.CreateOp? then |l.rows| else c.op.id;
      assert Step(l, c).rows[id] == Answer(l, c).value;
    }
  }

  /** A call that is not accepted changes nothing; an accepted one writes its row, at the end if it creates one, and
      no other. */
  lemma StepWrites(l: Ledger, c: Call)
    ensures !Accepted(l, c) ==> Step(l, c) == l
    ensures Accepted(l, c) ==>
      && Step(l, c).orders == l.orders
      && (if c.op.CreateOp? then
            |Step(l, c).rows| == |l.rows| + 1 && Step(l, c).rows[..|l.rows|] == l.rows && Writes(l, c, Step(l, c).rows[|l.rows|])
          else
            && |Step(l, c).rows| == |l.rows| && Writes(l, c, Step(l, c).rows[c.op.id])
            && forall i :: 0 <= i < |l.rows| && i != c.op.id ==> Step(l, c).rows[i] == l.rows[i])
  {
    hide Text.IsBlank;
  }

  // ---------- What the status says ----------

  /** The status tells how much of the payment was refunded. */
  predicate StatusTells(p: Payment) {
    && p.refundedAmount >= 0.0
    && match p.status
       case Pending => false
       case Paid => p.refundedAmount == 0.0
       case PartiallyRefunded => p.refundedAmount > 0.0 && p.remainingAmount > 0.0
       case Refunded => p.refundedAmount > 0.0 && p.remainingAmount <= 0.0
       case Cancelled => true
  }

  ghost predicate StatusesTell(l: Ledger) {
    forall i :: 0 <= i < |l.rows| ==> StatusTells(l.rows[i])
  }

  /** An update that moves the amount across what was refunded keeps the old status. */
  predicate StrandsStatus(l: Ledger, c: Call) {
    && c.op.UpdateOp? && c.op.newAmount.Some? && Found(l, c.op.id, c.restaurant)
    && (var p := l.rows[c.op.id];
        (p.status.PartiallyRefunded? && c.op.newAmount.value <= p.refundedAmount) ||
        (p.status.Refunded? && c.op.newAmount.value > p.refundedAmount))
  }

  /** The statuses keep telling how much was refunded exactly when the call is not such an update. */
  lemma StepStatusIff(l: Ledger, c: Call)
    requires Balanced(l) && StatusesTell(l) && Validated(c)
    ensures StatusesTell(Step(l, c)) <==> !StrandsStatus(l, c)
  {
    if StrandsStatus(l, c) {
      assert !StatusTells(Step(l, c).rows[c.op.id]);
    }
  }

  predicate NeverStrands(l: Ledger, calls: seq<Call>) {
    calls == [] || (NeverStrands(l, Front(calls)) && !StrandsStatus(Run(l, Front(calls)), Last(calls)))
  }

  lemma {:induction false} RunStatusesTell(l: Ledger, calls: seq<Call>)
    requires Balanced(l) && StatusesTell(l) && NeverStrands(l, calls)
    requires forall c :: c in calls ==> Validated(c)
    ensures StatusesTell(Run(l, calls))
  {
    if calls != [] {
      assert forall c :: c in Front(calls) ==> c in calls;
      RunStatusesTell(l, Front(calls));
      RunKeepsBalanced(l, Front(calls));
      StepStatusIff(Run(l, Front(calls)), Last(calls));
    }
  }

  /** What an order's payments are worth: the amount of a live one, the refunds of a cancelled one. */
  function Worth(orderId: string): Payment -> real {
    (p: Payment) => if p.orderId != orderId then 0.0 else if p.status.Cancelled? then p.refundedAmount else p.amount
  }

  /** The ledger always balances: paid plus refunded is the sum of the live amounts and of the refunds
      made on cancelled payments. */
  lemma {:induction false} BooksBalance(rows: seq<Payment>, orderId: string)
    requires forall i :: 0 <= i < |rows| ==> rows[i].refundedAmount <= rows[i].amount
    ensures PaidAmount(rows, orderId) + RefundedAmount(rows, orderId) == Sum(rows, Worth(orderId))
  {
    if rows != [] {
      assert forall i :: 0 <= i < |Front(rows)| ==> Front(rows)[i] == rows[i];
      assert Last(rows) == rows[|rows| - 1];
      BooksBalance(Front(rows), orderId);
    }
  }

  lemma RunBalances(l: Ledger, calls: seq<Call>, orderId: string)
    requires Balanced(l) && WithinAmounts(l) && NeverLowersBelow(l, calls)
    requires forall c :: c in calls ==> Validated(c)
    ensures var rows := Run(l, calls).rows;
            PaidAmount(rows, orderId) + RefundedAmount(rows, orderId) == Sum(rows, Worth(orderId))
  {
    RunWithin(l, calls);
    BooksBalance(Run(l, calls).rows, orderId);
  }
}

/** The service object over its payments table. */
module PaymentObjects {
  import opened Options
  import opened Reals
  import opened Sequences
  import opened Spec = Payments
  import Text

  class PaymentsService {
    const orders: map<string, string>
    var rows: seq<Payment>

    constructor (orders: map<string, string>)
      ensures State() == Ledger(orders, [])
    {
      this.orders := orders;
      rows := [];
    }

    function State(): Ledger
      reads this
    {
      Ledger(orders, rows)
    }

    method Create(orderId: string, amount: real, paymentMethod: Method, reason: string, restaurant: string) returns (r: Outcome)
      modifies this
      ensures (State(), r) == Spec.Create(old(State()), orderId, amount, paymentMethod, reason, restaurant)
    {
      if Text.IsBlank(reason) {
        return Err(ReasonRequired);
      }
      if orderId !in orders || orders[orderId] != restaurant {
        return Err(OrderNotFound);
      }
      var payment := Payment(orderId, amount, paymentMethod, Paid, 0.0, amount);
      rows := rows + [payment];
      r := Ok(payment);
    }

    method Update(id: nat, amount: Option<real>, restaurant: string) returns (r: Outcome)
      modifies this
      ensures (State(), r) == Spec.Update(old(State()), id, amount, restaurant)
    {
      if !Found(State(), id, restaurant) {
        return Err(PaymentNotFound);
      }
      var payment := rows[id];
      if payment.status == Cancelled {
        return Err(CancelledPayment);
      }
      if amount.Some? {
        payment := payment.(amount := amount.value, remainingAmount := amount.value - payment.refundedAmount);
      }
      rows := rows[id := payment];
      r := Ok(payment);
    }

    method Cancel(id: nat, reason: string, restaurant: string) returns (r: Outcome)
      modifies this
      ensures (State(), r) == Spec.Cancel(old(State()), id, reason, restaurant)
    {
      if Text.IsBlank(reason) {
        return Err(ReasonRequired);
      }
      if !Found(State(), id, restaurant) {
        return Err(PaymentNotFound);
      }
      if rows[id].status == Cancelled {
        assert rows[id := rows[id]] == rows;
        return Ok(rows[id]);
      }
      rows := rows[id := rows[id].(status := Cancelled)];
      r := Ok(rows[id]);
    }

    method Refund(id: nat, amount: real, reason: string, restaurant: string) returns (r: Outcome)
      modifies this
      ensures (State(), r) == Spec.Refund(old(State()), id, amount, reason, restaurant)
    {
      if Text.IsBlank(reason) {
        return Err(ReasonRequired);
      }
      if !Found(State(), id, restaurant) {
        return Err(PaymentNotFound);
      }
      var payment := rows[id];
      if amount > payment.remainingAmount {
        return Err(ExceedsRemaining);
      }
      var refundedAmount := payment.refundedAmount + amount;
      var remainingAmount := payment.amount - refundedAmount;
      var nextStatus := if remainingAmount <= 0.0 then Refunded else PartiallyRefunded;
      payment := payment.(refundedAmount := refundedAmount, remainingAmount := remainingAmount, status := nextStatus);
      rows := rows[id := payment];
      r := Ok(payment);
    }

    method ChangeMethod(id: nat, paymentMethod: Method, reason: string, restaurant: string) returns (r: Outcome)
      modifies this
      ensures (State(), r) == Spec.ChangeMethod(old(State()), id, paymentMethod, reason, restaurant)
    {
      if Text.IsBlank(reason) {
        return Err(ReasonRequired);
      }
      if !Found(State(), id, restaurant) {
        return Err(PaymentNotFound);
      }
      if rows[id].status == Refunded {
        return Err(FullyRefunded);
      }
      rows := rows[id := rows[id].(paymentMethod := paymentMethod)];
      r := Ok(rows[id]);
    }

    /** `summarizeByOrder`: filter, clamp and add up, then add up the refunds of all payments. */
    method SummarizeByOrder(orderId: string) returns (paidAmount: real, refundedAmount: real)
      ensures paidAmount == PaidAmount(rows, orderId) && refundedAmount == RefundedAmount(rows, orderId)
    {
      paidAmount, refundedAmount := 0.0, 0.0;
      for i := 0 to |rows|
        invariant paidAmount == PaidAmount(rows[..i], orderId) && refundedAmount == RefundedAmount(rows[..i], orderId)
      {
        SumSnoc(rows[..i], rows[i], Net(orderId));
        SumSnoc(rows[..i], rows[i], Returned(orderId));
        assert rows[..i + 1] == rows[..i] + [rows[i]];
        if rows[i].orderId == orderId {
          if rows[i].status != Cancelled {
            paidAmount := paidAmount + Max(rows[i].amount - rows[i].refundedAmount, 0.0);
          }
          refundedAmount := refundedAmount + rows[i].refundedAmount;
        }
      }
      assert rows[..|rows|] == rows;
    }
  }
}
