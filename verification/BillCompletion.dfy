/** Completing a bill: the credit gate, the stock transaction, and the writes that follow it one by
    one. `Advance` is the work between two awaits that touch the tables, so that a run can stop, or
    be interleaved with others, after any of them. */
module BillCompletion {
  import opened Wrappers
  import opened StockPool
  import opened Tables

  // ---- the credit gate ----

  function ShouldSkipCreditApproval(db: Db, bill: Bill, customer: Customer): bool {
    if customer.skipApproval.Some? then customer.skipApproval.value else
    var kind := if bill.customerType.Some? then bill.customerType else customer.customerType;
    kind.Some? && (bill.organization, kind.value) in db.typeRules && db.typeRules[(bill.organization, kind.value)]
  }

  predicate HasApproval(db: Db, bill: Id, status: ApprovalStatus) {
    exists i :: 0 <= i < |db.approvals| && db.approvals[i].bill == bill && db.approvals[i].status == status
  }

  /** `enforceCreditLimit`: passes, or throws; exceeding the limit also files an approval request. */
  function EnforceCreditLimit(db: Db, bill: Bill, requestedBy: Id): (Db, Result<()>) {
    if bill.customer.None? then (db, Failure(BadRequest))
    else if bill.customer.value !in db.customers then (db, Failure(NotFound))
    else
      var customer := db.customers[bill.customer.value];
      if customer.limit.None? then (db, Failure(BadRequest))
      else if customer.balance + bill.total <= customer.limit.value then (db, Success(()))
      else if ShouldSkipCreditApproval(db, bill, customer) then (db, Success(()))
      else if HasApproval(db, bill.id, Approved) then (db, Success(()))
      else
        var request := Approval(bill.organization, bill.customer.value, bill.id, bill.total, requestedBy, Requested);
        (db.(approvals := db.approvals + [request]), Failure(LimitExceeded(|db.approvals|)))
  }

  function AssertCreditLimitForBill(db: Db, bill: Bill, requestedBy: Id): (Db, Result<()>) {
    if !bill.saleType.Credit? then (db, Success(())) else EnforceCreditLimit(db, bill, requestedBy)
  }

  // ---- the stock transaction ----

  function LineKey(bill: Bill, item: BillItem): Key {
    Key(bill.organization, bill.location, item.product)
  }

  /** Official sales reference the bill; black sales only name it in their notes. */
  function SaleMeta(bill: Bill, item: BillItem, performedBy: Id): Meta {
    if bill.saleType.Black?
    then Meta(bill.location, item.product, Some(performedBy), None, None, None, "Black sale " + bill.number)
    else Meta(bill.location, item.product, Some(performedBy), Some(bill.id), Some("bill"), None, "Sale " + bill.number)
  }

  function LineTx(p: Pool, bill: Bill, item: BillItem, performedBy: Id): Result<Pool> {
    var key := LineKey(bill, item);
    if key !in p.index || p.index[key] !in p.rows then Failure(BadRequest) else
    var before := p.rows[p.index[key]].onHand;
    var t :- DeductStock(p, p.index[key], item.quantity);
    Success(Record(t.pool, Movement(p.index[key], StockOut, item.quantity, before, t.row.onHand, SaleMeta(bill, item, performedBy))))
  }

  function LinesTx(p: Pool, bill: Bill, items: seq<BillItem>, performedBy: Id): Result<Pool>
    decreases |items|
  {
    if items == [] then Success(p) else
    var p1 :- LineTx(p, bill, items[0], performedBy);
    LinesTx(p1, bill, items[1..], performedBy)
  }

  /** The pool a sale draws from. */
  function SalePool(db: Db, bill: Bill): Pool {
    if bill.saleType.Black? then db.unpublished else db.published
  }

  function WithSalePool(db: Db, bill: Bill, p: Pool): Db {
    if bill.saleType.Black? then db.(unpublished := p) else db.(published := p)
  }

  // ---- the process ----

  datatype CompleteCall = CompleteCall(bill: Id, performedBy: Id, override: bool, paymentMethod: Option<string>, now: int)

  datatype Stage =
    | Gate | Deduct | RecordCommission | ReadCustomer | WriteBalance(customer: Customer) | WriteTxn(before: int)
    | Close | Finished | Failed(error: Error)

  /** A `completeBill` call in progress, with the copy of the bill it loaded. */
  datatype Process =
    | Missing
    | Process(call: CompleteCall, bill: Bill, stage: Stage)

  function Begin(db: Db, call: CompleteCall): Process {
    if call.bill !in db.bills || call.bill in db.deletedBills then Missing else Process(call, db.bills[call.bill], Gate)
  }

  function OwesCommission(bill: Bill): bool {
    (bill.facilitatorUser.Some? || bill.facilitatorName != "") && bill.commission != 0
  }

  function CommissionOf(bill: Bill): Commission {
    Commission(bill.organization, bill.id, bill.facilitatorUser, bill.facilitatorName, bill.commission)
  }

  /** The bill's own columns are written from the copy the call loaded. */
  function CompletedBill(bill: Bill, call: CompleteCall): Bill {
    bill.(billedAt := Some(call.now), status := Closed,
          paymentMethod := if call.paymentMethod.Some? && call.paymentMethod.value != "" then call.paymentMethod
                           else bill.paymentMethod)
  }

  /** The row `completeBill` leaves behind: the columns of its copy, and the lines stored at the time,
      which it does not write. */
  function ClosedRow(db: Db, bill: Bill, call: CompleteCall): Bill {
    CompletedBill(bill, call).(items := if bill.id in db.bills then db.bills[bill.id].items else bill.items)
  }

  function Advance(db: Db, p: Process): (Db, Process) {
    if p.Missing? then (db, p) else
    match p.stage
    case Gate =>
      if p.bill.saleType.Credit? && !p.call.override then
        var (db1, r) := EnforceCreditLimit(db, p.bill, p.call.performedBy);
        (db1, p.(stage := if r.Success? then Deduct else Failed(r.error)))
      else (db, p.(stage := Deduct))
    case Deduct =>
      var r := LinesTx(SalePool(db, p.bill), p.bill, p.bill.items, p.call.performedBy);
      if r.Success? then (WithSalePool(db, p.bill, r.value), p.(stage := RecordCommission))
      else (db, p.(stage := Failed(r.error)))
    case RecordCommission =>
      (if p.bill.saleType.Black? && OwesCommission(p.bill)
       then db.(commissions := db.commissions + [CommissionOf(p.bill)]) else db,
       p.(stage := if p.bill.saleType.Credit? then ReadCustomer else Close))
    case ReadCustomer =>
      if p.bill.customer.None? || p.bill.customer.value !in db.customers then (db, p.(stage := Failed(NotFound)))
      else (db, p.(stage := WriteBalance(db.customers[p.bill.customer.value])))
    case WriteBalance(customer) =>
      if p.bill.customer.None? then (db, p.(stage := Failed(NotFound))) else
      (db.(customers := db.customers[p.bill.customer.value := customer.(balance := customer.balance + p.bill.total)]),
       p.(stage := WriteTxn(customer.balance)))
    case WriteTxn(before) =>
      if p.bill.customer.None? then (db, p.(stage := Failed(NotFound))) else
      (db.(creditTxns := db.creditTxns
             + [CreditTxn(p.bill.customer.value, p.bill.id, p.bill.total, before, before + p.bill.total, p.call.performedBy)]),
       p.(stage := Close))
    case Close => (db.(bills := db.bills[p.bill.id := ClosedRow(db, p.bill, p.call)]), p.(stage := Finished))
    case Finished => (db, p)
    case Failed(_) => (db, p)
  }

  /** A call that lives for `k` steps and then crashes; long enough, it runs to its end. */
  function Drive(db: Db, p: Process, k: nat): (Db, Process)
    decreases k
  {
    if k == 0 then (db, p) else
    var (db1, p1) := Advance(db, p);
    Drive(db1, p1, k - 1)
  }

  predicate Ended(p: Process) {
    p.Missing? || p.stage.Finished? || p.stage.Failed?
  }

  lemma {:induction false} DriveEnded(db: Db, p: Process, k: nat)
    requires Ended(p)
    ensures Drive(db, p, k) == (db, p)
  {
    if k > 0 {
      DriveEnded(db, p, k - 1);
    }
  }

  // ---- the service ----

  class BillCompletionService {
    const db: Database

    constructor (db: Database)
      ensures this.db == db
    {
      this.db := db;
    }

    method SkipsCreditApproval(bill: Bill, customer: Customer) returns (skip: bool)
      ensures skip == ShouldSkipCreditApproval(db.State(), bill, customer)
    {
      if customer.skipApproval.Some? { return customer.skipApproval.value; }
      var kind := if bill.customerType.Some? then bill.customerType else customer.customerType;
      if kind.None? { return false; }
      if (bill.organization, kind.value) !in db.typeRules { return false; }
      return db.typeRules[(bill.organization, kind.value)];
    }

    method PassCreditGate(bill: Bill, requestedBy: Id) returns (r: Result<()>)
      requires db.Valid()
      modifies db
      ensures (db.State(), r) == EnforceCreditLimit(old(db.State()), bill, requestedBy)
    {
      if bill.customer.None? { return Failure(BadRequest); }
      if bill.customer.value !in db.customers { return Failure(NotFound); }
      var customer := db.customers[bill.customer.value];
      if customer.limit.None? { return Failure(BadRequest); }
      var wouldBeBalance := customer.balance + bill.total;
      if wouldBeBalance > customer.limit.value {
        var skip := SkipsCreditApproval(bill, customer);
        if skip { return Success(()); }
        if exists i :: 0 <= i < |db.approvals| && db.approvals[i].bill == bill.id && db.approvals[i].status == Approved {
          return Success(());
        }
        var id := |db.approvals|;
        db.approvals := db.approvals
          + [Approval(bill.organization, bill.customer.value, bill.id, bill.total, requestedBy, Requested)];
        return Failure(LimitExceeded(id));
      }
      return Success(());
    }

    method AssertCreditLimit(bill: Bill, requestedBy: Id) returns (r: Result<()>)
      requires db.Valid()
      modifies db
      ensures (db.State(), r) == AssertCreditLimitForBill(old(db.State()), bill, requestedBy)
    {
      if !bill.saleType.Credit? { return Success(()); }
      r := PassCreditGate(bill, requestedBy);
    }

    /** Works inside the caller's transaction: after a failure the caller rolls back. The source
        writes this loop twice, over the published and over the unpublished repositories. */
    method DeductLines(table: StockTable, bill: Bill, items: seq<BillItem>, performedBy: Id) returns (r: Result<()>)
      modifies table
      ensures var tx := LinesTx(old(table.View()), bill, items, performedBy);
              && r.Success? == tx.Success?
              && (tx.Success? ==> table.View() == tx.value)
              && (tx.Failure? ==> r.Failure? && r.error == tx.error)
    {
      var i := 0;
      assert items[0..] == items;
      while i < |items|
        invariant 0 <= i <= |items|
        invariant LinesTx(old(table.View()), bill, items, performedBy) == LinesTx(table.View(), bill, items[i..], performedBy)
      {
        assert items[i..][1..] == items[i + 1..];
        var item := items[i];
        var key := LineKey(bill, item);
        if key !in table.index || table.index[key] !in table.rows { return Failure(BadRequest); }
        var id := table.index[key];
        var before := table.rows[id].onHand;
        var updated := table.DeductStock(id, item.quantity);
        if updated.Failure? { return Failure(updated.error); }
        table.CreateMovement(Movement(id, StockOut, item.quantity, before, updated.value.onHand, SaleMeta(bill, item, performedBy)));
        i := i + 1;
      }
      return Success(());
    }

    /** `applyCredit`, cut off after `lifetime` of its three steps. */
    method ApplyCredit(p: Process, lifetime: nat) returns (q: Process)
      requires db.Valid() && p.Process? && p.stage == ReadCustomer && lifetime <= 3
      modifies db
      ensures (db.State(), q) == Drive(old(db.State()), p, lifetime)
      ensures q.Process? && q.call == p.call && q.bill == p.bill
      ensures (q.stage == Close ==> lifetime == 3) && (lifetime == 3 ==> q.stage == Close || q.stage.Failed?)
    {
      q := p;
      if lifetime == 0 { return; }
      if p.bill.customer.None? || p.bill.customer.value !in db.customers {
        q := q.(stage := Failed(NotFound));
        DriveEnded(db.State(), q, lifetime - 1);
        return;
      }
      var customer := db.customers[p.bill.customer.value];
      var before := customer.balance;
      q := q.(stage := WriteBalance(customer));
      if lifetime == 1 { return; }
      var total := before + p.bill.total;
      db.customers := db.customers[p.bill.customer.value := customer.(balance := total)];
      q := q.(stage := WriteTxn(before));
      assert Drive(old(db.State()), p, lifetime) == Drive(db.State(), q, lifetime - 2);
      if lifetime == 2 { return; }
      db.creditTxns := db.creditTxns
        + [CreditTxn(p.bill.customer.value, p.bill.id, p.bill.total, before, total, p.call.performedBy)];
      q := q.(stage := Close);
    }

    method RecordCommissionFor(bill: Bill)
      requires db.Valid()
      modifies db
      ensures db.State() == if OwesCommission(bill) then old(db.State()).(commissions := old(db.commissions) + [CommissionOf(bill)])
                            else old(db.State())
    {
      if OwesCommission(bill) {
        db.commissions := db.commissions + [CommissionOf(bill)];
      }
    }

    method CloseBill(p: Process, lifetime: nat) returns (q: Process)
      requires db.Valid() && p.Process? && p.stage == Close
      modifies db
      ensures (db.State(), q) == Drive(old(db.State()), p, lifetime)
    {
      if lifetime == 0 { return p; }
      var items := if p.bill.id in db.bills then db.bills[p.bill.id].items else p.bill.items;
      db.bills := db.bills[p.bill.id := CompletedBill(p.bill, p.call).(items := items)];
      q := p.(stage := Finished);
      DriveEnded(db.State(), q, lifetime - 1);
    }

    /** The writes after the stock transaction, each on its own: commission, credit, bill. */
    method Settle(p: Process, lifetime: nat) returns (q: Process)
      requires db.Valid() && p.Process? && p.stage == RecordCommission
      modifies db
      ensures (db.State(), q) == Drive(old(db.State()), p, lifetime)
    {
      if lifetime == 0 { return p; }
      if p.bill.saleType.Black? { RecordCommissionFor(p.bill); }
      q := p.(stage := if p.bill.saleType.Credit? then ReadCustomer else Close);
      var left := lifetime - 1;
      if p.bill.saleType.Credit? {
        var steps := if left <= 3 then left else 3;
        DriveSplit(db.State(), q, steps, left);
        q := ApplyCredit(q, steps);
        left := left - steps;
        if q.stage.Failed? { DriveEnded(db.State(), q, left); }
        if q.stage != Close { return; }
      }
      q := CloseBill(q, left);
    }

    /** `completeBill`, cut off after `lifetime` steps; the result tells how far it came. */
    method CompleteBill(call: CompleteCall, lifetime: nat) returns (q: Process)
      requires db.Valid()
      modifies db.Repr()
      ensures (db.State(), q) == Drive(old(db.State()), Begin(old(db.State()), call), lifetime)
    {
      if call.bill !in db.bills || call.bill in db.deletedBills {
        DriveEnded(db.State(), Missing, lifetime);
        return Missing;
      }
      var bill := db.bills[call.bill];
      q := Process(call, bill, Gate);
      if lifetime == 0 { return; }
      if bill.saleType.Credit? && !call.override {
        var gate := PassCreditGate(bill, call.performedBy);
        if gate.Failure? {
          q := q.(stage := Failed(gate.error));
          DriveEnded(db.State(), q, lifetime - 1);
          return;
        }
      }
      q := q.(stage := Deduct);
      if lifetime == 1 { return; }
      var savepoint := db.State();
      assert Drive(old(db.State()), Begin(old(db.State()), call), lifetime) == Drive(savepoint, q, lifetime - 1);
      q := RunStockTransaction(q, savepoint);
      if q.stage.Failed? {
        DriveEnded(db.State(), q, lifetime - 2);
        return;
      }
      q := Settle(q, lifetime - 2);
    }

    /** The choice of the pool; after a failure the caller rolls back. */
    method DeductSale(bill: Bill, performedBy: Id) returns (tx: Result<()>)
      requires db.Valid()
      modifies db.published, db.unpublished
      ensures var lines := LinesTx(SalePool(old(db.State()), bill), bill, bill.items, performedBy);
              && tx.Success? == lines.Success?
              && (lines.Success? ==> db.State() == WithSalePool(old(db.State()), bill, lines.value))
              && (lines.Failure? ==> tx.Failure? && tx.error == lines.error)
      ensures db.State() == old(db.State()).(published := db.published.View(), unpublished := db.unpublished.View())
    {
      if bill.saleType.Black? {
        tx := DeductLines(db.unpublished, bill, bill.items, performedBy);
      } else {
        tx := DeductLines(db.published, bill, bill.items, performedBy);
      }
    }

    /** The stock transaction: all lines are deducted, or none. */
    method RunStockTransaction(p: Process, savepoint: Db) returns (q: Process)
      requires db.Valid() && p.Process? && p.stage == Deduct && savepoint == db.State()
      modifies db.published, db.unpublished
      ensures (db.State(), q) == Advance(old(db.State()), p)
      ensures q.Process? && (q.stage.Failed? || q.stage == RecordCommission)
    {
      var tx := DeductSale(p.bill, p.call.performedBy);
      if tx.Failure? {
        db.Rollback(savepoint);
        return p.(stage := Failed(tx.error));
      }
      return p.(stage := RecordCommission);
    }
  }

  lemma {:induction false} DriveSplit(db: Db, p: Process, i: nat, k: nat)
    requires i <= k
    ensures Drive(db, p, k) == Drive(Drive(db, p, i).0, Drive(db, p, i).1, k - i)
    decreases i
  {
    if i > 0 {
      var (db1, p1) := Advance(db, p);
      DriveSplit(db1, p1, i - 1, k - 1);
    }
  }

  // ---- which tables a step touches ----

  lemma AdvanceKeepsProcess(db: Db, p: Process)
    ensures var q := Advance(db, p).1; q.Process? == p.Process? && (p.Process? ==> q.bill == p.bill && q.call == p.call)
  {
  }

  /** A step appends to lists, closes its own bill only at the end, and moves stock only in `Deduct`. */
  ghost predicate StepFrame(db: Db, p: Process, d: Db) {
    && d == db.(published := d.published, unpublished := d.unpublished, approvals := d.approvals,
                commissions := d.commissions, customers := d.customers, creditTxns := d.creditTxns, bills := d.bills)
    && db.approvals <= d.approvals && db.commissions <= d.commissions && db.creditTxns <= d.creditTxns
    && d.bills == (if p.Process? && p.stage.Close? then db.bills[p.bill.id := ClosedRow(db, p.bill, p.call)] else db.bills)
    && (!(p.Process? && p.stage.Deduct?) ==> d.published == db.published && d.unpublished == db.unpublished)
  }

  lemma GateFrame(db: Db, p: Process)
    requires p.Process? && p.stage.Gate?
    ensures StepFrame(db, p, Advance(db, p).0)
  {
  }

  lemma SaleFrame(db: Db, p: Process, q: Pool)
    requires p.Process? && p.stage.Deduct?
    ensures StepFrame(db, p, WithSalePool(db, p.bill, q))
  {
  }

  lemma DeductFrame(db: Db, p: Process)
    requires p.Process? && p.stage.Deduct?
    ensures StepFrame(db, p, Advance(db, p).0)
  {
    var r := LinesTx(SalePool(db, p.bill), p.bill, p.bill.items, p.call.performedBy);
    var q := if r.Success? then r.value else SalePool(db, p.bill);
    SaleFrame(db, p, q);
    assert Advance(db, p).0 == WithSalePool(db, p.bill, q);
  }

  lemma CommissionFrame(db: Db, p: Process)
    requires p.Process? && (p.stage.RecordCommission? || p.stage.ReadCustomer?)
    ensures StepFrame(db, p, Advance(db, p).0)
  {
  }

  lemma CreditFrame(db: Db, p: Process)
    requires p.Process? && (p.stage.WriteBalance? || p.stage.WriteTxn?)
    ensures StepFrame(db, p, Advance(db, p).0)
  {
  }

  lemma CloseFrame(db: Db, p: Process)
    requires Ended(p) || p.stage.Close?
    ensures StepFrame(db, p, Advance(db, p).0)
  {
  }

  lemma AdvanceFrame(db: Db, p: Process)
    ensures StepFrame(db, p, Advance(db, p).0)
  {
    if Ended(p) || p.stage.Close? {
      CloseFrame(db, p);
    } else if p.stage.Gate? {
      GateFrame(db, p);
    } else if p.stage.Deduct? {
      DeductFrame(db, p);
    } else if p.stage.RecordCommission? || p.stage.ReadCustomer? {
      CommissionFrame(db, p);
    } else {
      CreditFrame(db, p);
    }
  }
}
