/** Whether an order may be fulfilled and dispatched, and its payment status. */
module Dispatch {
  import opened Wrappers
  import opened StockPool
  import opened Tables
  import opened BillCompletion

  datatype BlockReason = OrderNotFound | CreditPending | PrepaymentRequired | DepositRequired | PaymentNotMet

  /** `amountRequired` is a real number of 0.0001 units: half of an odd total is not a whole one. */
  datatype Evaluation = Evaluation(
    canDispatch: bool, canFulfill: bool, timing: Timing, paymentLabel: string, amountPaid: int, amountRequired: real,
    blockReason: Option<BlockReason>, creditApprovalPending: bool)

  function BillFor(db: Db, order: Id): Option<Bill> {
    if order in db.billOfOrder && db.billOfOrder[order] in db.bills && db.billOfOrder[order] !in db.deletedBills
    then Some(db.bills[db.billOfOrder[order]]) else None
  }

  predicate CountsFor(p: Payment, bill: Id) {
    p.reference == bill && p.referenceType == "bill" && p.status == "completed"
  }

  /** `sumCompletedByReferenceAsync` */
  function SumCompleted(payments: seq<Payment>, bill: Id): int
    decreases |payments|
  {
    if payments == [] then 0 else
    var last := payments[|payments| - 1];
    SumCompleted(payments[..|payments| - 1], bill) + (if CountsFor(last, bill) then last.amount else 0)
  }

  function RequiredAmount(timing: Timing, total: int, partial: Option<int>): real {
    match timing
    case BeforeDelivery => total as real
    case Half => if partial.GetOr(0) > 0 then partial.value as real else total as real / 2.0
    case _ => 0.0
  }

  /** The tolerance of 0.0001 is one unit. */
  predicate PaymentSatisfied(timing: Timing, paid: int, required: real, total: int) {
    match timing
    case BeforeDelivery => paid >= total - 1
    case Half => paid as real >= required - 1.0
    case _ => true
  }

  function PaymentLabel(timing: Timing): string {
    match timing
    case BeforeDelivery => "Prepaid"
    case Half => "Partial"
    case AfterDelivery => "Credit"
    case Cod => "COD"
  }

  function PaymentBlockReason(timing: Timing): BlockReason {
    match timing
    case BeforeDelivery => PrepaymentRequired
    case Half => DepositRequired
    case _ => PaymentNotMet
  }

  function EvaluateOrder(db: Db, order: Id): Evaluation {
    if order !in db.orders then
      Evaluation(false, false, Cod, PaymentLabel(Cod), 0, 0.0, Some(OrderNotFound), false)
    else
      var bill := BillFor(db, order);
      var timing := if bill.Some? then bill.value.timing.GetOr(Cod) else Cod;
      var total := if bill.Some? then bill.value.total else db.orders[order].total;
      var paid := if bill.Some? then SumCompleted(db.payments, bill.value.id) else 0;
      var required := RequiredAmount(timing, total, if bill.Some? then bill.value.partial else None);
      if bill.Some? && HasApproval(db, bill.value.id, Requested) then
        Evaluation(false, false, timing, PaymentLabel(timing), paid, required, Some(CreditPending), true)
      else if !PaymentSatisfied(timing, paid, required, total) then
        Evaluation(false, true, timing, PaymentLabel(timing), paid, required, Some(PaymentBlockReason(timing)), false)
      else
        Evaluation(true, true, timing, PaymentLabel(timing), paid, required, None, false)
  }

  const UNPAID := "UNPAID"
  const PARTIAL := "PARTIAL"
  const PAID := "PAID"

  function PaymentStatus(paid: int, total: int): string {
    if paid >= total && total > 0 then PAID else if paid > 0 then PARTIAL else UNPAID
  }

  function SyncOrderPaymentStatus(db: Db, order: Id): Db {
    var bill := BillFor(db, order);
    if order !in db.orders || bill.None? then db else
    var status := PaymentStatus(SumCompleted(db.payments, bill.value.id), bill.value.total);
    db.(orders := db.orders[order := db.orders[order].(paymentStatus := status)])
  }

  class OrderDispatchPaymentService {
    const db: Database

    constructor (db: Database)
      ensures this.db == db
    {
      this.db := db;
    }

    method AssertCanDispatch(order: Id) returns (r: Result<()>)
      ensures r.Success? <==> EvaluateOrder(db.State(), order).canDispatch
    {
      var evaluation := EvaluateOrder(db.State(), order);
      return if evaluation.canDispatch then Success(()) else Failure(BadRequest);
    }

    method AssertCanFulfill(order: Id) returns (r: Result<()>)
      ensures r.Success? <==> EvaluateOrder(db.State(), order).canFulfill
    {
      var evaluation := EvaluateOrder(db.State(), order);
      return if evaluation.canFulfill then Success(()) else Failure(BadRequest);
    }

    /** Writes only when the status changes. */
    method Sync(order: Id)
      requires db.Valid()
      modifies db
      ensures db.State() == SyncOrderPaymentStatus(old(db.State()), order)
    {
      if order !in db.orders { return; }
      var bill := BillFor(db.State(), order);
      if bill.None? { return; }
      var amountPaid := SumCompleted(db.payments, bill.value.id);
      var paymentStatus := UNPAID;
      if amountPaid >= bill.value.total && bill.value.total > 0 {
        paymentStatus := PAID;
      } else if amountPaid > 0 {
        paymentStatus := PARTIAL;
      }
      if db.orders[order].paymentStatus != paymentStatus {
        db.orders := db.orders[order := db.orders[order].(paymentStatus := paymentStatus)];
      } else {
        assert db.orders == db.orders[order := db.orders[order].(paymentStatus := paymentStatus)];
      }
    }
  }

  // ---- properties ----

  function Rank(status: string): int {
    if status == PAID then 2 else if status == PARTIAL then 1 else 0
  }

  lemma {:induction false} SumGrows(a: seq<Payment>, b: seq<Payment>, bill: Id)
    requires forall p <- b :: CountsFor(p, bill) ==> 0 <= p.amount
    ensures SumCompleted(a, bill) <= SumCompleted(a + b, bill)
    decreases |b|
  {
    if b == [] {
      assert a + b == a;
    } else {
      assert (a + b)[..|a + b| - 1] == a + b[..|b| - 1];
      SumGrows(a, b[..|b| - 1], bill);
    }
  }

  /** The status the order gets when it is synced. */
  function SyncedStatus(db: Db, order: Id): string {
    var bill := BillFor(db, order);
    if order !in db.orders then UNPAID
    else if bill.None? then db.orders[order].paymentStatus
    else PaymentStatus(SumCompleted(db.payments, bill.value.id), bill.value.total)
  }

  /** Payments never hurt: whatever non-negative payments arrive, a dispatchable order stays
      dispatchable and the payment status never falls. */
  lemma PaymentsAreMonotone(db: Db, order: Id, more: seq<Payment>)
    requires forall p <- more :: p.status == "completed" ==> 0 <= p.amount
    ensures var db1 := db.(payments := db.payments + more);
            && (EvaluateOrder(db, order).canDispatch ==> EvaluateOrder(db1, order).canDispatch)
            && Rank(SyncedStatus(db, order)) <= Rank(SyncedStatus(db1, order))
  {
    var db1 := db.(payments := db.payments + more);
    var bill := BillFor(db, order);
    assert BillFor(db1, order) == bill;
    if bill.Some? {
      SumGrows(db.payments, more, bill.value.id);
      assert HasApproval(db1, bill.value.id, Requested) == HasApproval(db, bill.value.id, Requested);
    }
  }

  /** Full payment always satisfies the timing, except when a deposit larger than the total was
      agreed (by more than the tolerance). */
  lemma PaidSatisfiesIffDepositWithinTotal(timing: Timing, total: int, partial: Option<int>)
    requires total > 0
    ensures (forall paid | PaymentStatus(paid, total) == PAID ::
               PaymentSatisfied(timing, paid, RequiredAmount(timing, total, partial), total))
       <==> !(timing == Half && partial.GetOr(0) > total + 1)
  {
    if timing == Half && partial.GetOr(0) > total + 1 {
      assert PaymentStatus(total, total) == PAID;
      assert !PaymentSatisfied(timing, total, RequiredAmount(timing, total, partial), total);
    }
  }

  /** The payment status and the dispatch gate agree. */
  lemma PaidOrdersDispatch(db: Db, order: Id)
    requires order in db.orders && BillFor(db, order).Some?
    requires SyncedStatus(db, order) == PAID && !HasApproval(db, BillFor(db, order).value.id, Requested)
    requires !(BillFor(db, order).value.timing == Some(Half)
               && BillFor(db, order).value.partial.GetOr(0) > BillFor(db, order).value.total + 1)
    ensures EvaluateOrder(db, order).canDispatch
  {
    var bill := BillFor(db, order).value;
    assert PARTIAL != PAID && UNPAID != PAID;
    PaidSatisfiesIffDepositWithinTotal(bill.timing.GetOr(Cod), bill.total, bill.partial);
  }

  /** A dispatchable prepaid order is paid, or short by exactly one unit. */
  lemma DispatchedPrepaidIsPaid(db: Db, order: Id)
    requires BillFor(db, order).Some? && BillFor(db, order).value.timing == Some(BeforeDelivery)
    requires BillFor(db, order).value.total > 0 && EvaluateOrder(db, order).canDispatch
    ensures SyncedStatus(db, order) == PAID
         || EvaluateOrder(db, order).amountPaid == BillFor(db, order).value.total - 1
  {
  }

  /** Syncing stores the synced status, changes no evaluation, and a second sync does nothing. */
  lemma SyncIsIdempotent(db: Db, order: Id, other: Id)
    ensures var db1 := SyncOrderPaymentStatus(db, order);
            && SyncOrderPaymentStatus(db1, order) == db1
            && EvaluateOrder(db1, other) == EvaluateOrder(db, other)
            && (order in db.orders ==> order in db1.orders && db1.orders[order].paymentStatus == SyncedStatus(db, order))
  {
    var db1 := SyncOrderPaymentStatus(db, order);
    assert BillFor(db1, other) == BillFor(db, other) && BillFor(db1, order) == BillFor(db, order);
    if BillFor(db, other).Some? {
      var id := BillFor(db, other).value.id;
      assert HasApproval(db1, id, Requested) == HasApproval(db, id, Requested);
    }
    if order in db.orders && BillFor(db, order).Some? {
      assert SyncOrderPaymentStatus(db1, order).orders == db1.orders;
    }
  }

  // ---- the decision, column by column ----

  predicate IsPending(db: Db, bill: Id) {
    exists i :: 0 <= i < |db.approvals| && db.approvals[i].bill == bill && db.approvals[i].status == Requested
  }

  /** Prepaid orders wait for the total and half-paid ones for the deposit, or without a positive deposit
      for half of the total, each but for one unit; all others go out unpaid. */
  predicate PaidEnough(bill: Bill, paid: int) {
    match bill.timing
    case None => true
    case Some(Cod) => true
    case Some(AfterDelivery) => true
    case Some(BeforeDelivery) => paid + 1 >= bill.total
    case Some(Half) =>
      if bill.partial.Some? && bill.partial.value > 0 then paid + 1 >= bill.partial.value else 2 * (paid + 1) >= bill.total
  }

  /** A known order may be fulfilled exactly when no request of its bill is pending, and dispatched exactly
      when, besides, it has no bill or enough has been paid for its timing. */
  lemma DispatchIff(db: Db, order: Id)
    requires order in db.orders
    ensures var evaluation, bill := EvaluateOrder(db, order), BillFor(db, order);
            var pending := bill.Some? && IsPending(db, bill.value.id);
            && (evaluation.creditApprovalPending <==> pending)
            && (evaluation.canFulfill <==> !pending)
            && (evaluation.canDispatch <==> !pending && (bill.None? || PaidEnough(bill.value, evaluation.amountPaid)))
            && evaluation.amountPaid == (if bill.Some? then SumCompleted(db.payments, bill.value.id) else 0)
  {
    if BillFor(db, order).Some? {
      assert IsPending(db, BillFor(db, order).value.id) <==> HasApproval(db, BillFor(db, order).value.id, Requested);
    }
  }

  lemma UnknownOrder(db: Db, order: Id)
    requires order !in db.orders
    ensures var evaluation := EvaluateOrder(db, order);
            && !evaluation.canDispatch && !evaluation.canFulfill && !evaluation.creditApprovalPending
            && evaluation.blockReason == Some(OrderNotFound) && evaluation.amountPaid == 0 && evaluation.amountRequired == 0.0
            && evaluation.timing == Cod && evaluation.paymentLabel == "COD"
  {
  }

  /** The bill of an order is the row its query finds, unless it is deleted. */
  lemma BillIff(db: Db, order: Id, bill: Bill)
    ensures BillFor(db, order) == Some(bill) <==>
            exists id :: order in db.billOfOrder && id == db.billOfOrder[order] && id in db.bills && id !in db.deletedBills
                         && db.bills[id] == bill
  {
  }

  /** What is asked for: the total before delivery, the deposit or exactly half of the total, or nothing. */
  lemma RequiredAmounts(db: Db, order: Id)
    requires order in db.orders
    ensures var evaluation, bill := EvaluateOrder(db, order), BillFor(db, order);
            var required := evaluation.amountRequired;
            if bill.None? || bill.value.timing in {None, Some(Cod), Some(AfterDelivery)} then required == 0.0
            else if bill.value.timing == Some(BeforeDelivery) then required == bill.value.total as real
            else if bill.value.partial.Some? && bill.value.partial.value > 0 then required == bill.value.partial.value as real
            else required + required == bill.value.total as real
  {
  }

  /** What is shown of the timing, and why an order is held: a pending request before anything else, then
      the kind of payment missing. The general reason is never given. */
  lemma ReasonsGiven(db: Db, order: Id)
    requires order in db.orders
    ensures var evaluation, bill := EvaluateOrder(db, order), BillFor(db, order);
            var timing := if bill.Some? && bill.value.timing.Some? then bill.value.timing.value else Cod;
            && evaluation.timing == timing
            && (evaluation.paymentLabel == "Prepaid" <==> timing.BeforeDelivery?)
            && (evaluation.paymentLabel == "Partial" <==> timing.Half?)
            && (evaluation.paymentLabel == "Credit" <==> timing.AfterDelivery?)
            && (evaluation.paymentLabel == "COD" <==> timing.Cod?)
            && (evaluation.blockReason == None <==> evaluation.canDispatch)
            && (evaluation.blockReason == Some(CreditPending) <==> evaluation.creditApprovalPending)
            && (evaluation.blockReason == Some(PrepaymentRequired) ==> timing.BeforeDelivery?)
            && (evaluation.blockReason == Some(DepositRequired) ==> timing.Half?)
            && evaluation.blockReason != Some(OrderNotFound) && evaluation.blockReason != Some(PaymentNotMet)
  {
  }

  /** What counts as paid: the completed payments that name the bill, and no others. */
  lemma PaymentsCount(payments: seq<Payment>, p: Payment, bill: Id)
    ensures SumCompleted([], bill) == 0
    ensures SumCompleted(payments + [p], bill) == SumCompleted(payments, bill) +
              (if p.status == "completed" && p.referenceType == "bill" && p.reference == bill then p.amount else 0)
  {
    assert (payments + [p])[..|payments + [p]| - 1] == payments;
  }

  /** The status a sync leaves: paid from a positive total on, partial from any payment on. */
  lemma StatusIff(db: Db, order: Id)
    requires order in db.orders && BillFor(db, order).Some?
    ensures var bill, status := BillFor(db, order).value, SyncOrderPaymentStatus(db, order).orders[order].paymentStatus;
            var paid := SumCompleted(db.payments, bill.id);
            && (status == "PAID" <==> bill.total > 0 && paid >= bill.total)
            && (status == "PARTIAL" <==> paid > 0 && !(bill.total > 0 && paid >= bill.total))
            && (status == "UNPAID" <==> paid <= 0 && !(bill.total > 0 && paid >= bill.total))
            && SyncOrderPaymentStatus(db, order).orders[order].total == db.orders[order].total
  {
    assert |"PAID"| == 4 && |"PARTIAL"| == 7 && |"UNPAID"| == 6;
  }
}
