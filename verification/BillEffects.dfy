/** What each step of a completion decides and writes, column by column. */
module BillEffects {
  import opened Wrappers
  import opened StockPool
  import opened Ledger
  import opened Tables
  import opened BillCompletion
  import opened BillProofs
  import opened StockEffects

  // ---- the credit gate ----

  predicate RuleSkips(db: Db, organization: Id, kind: CustomerType) {
    (organization, kind) in db.typeRules && db.typeRules[(organization, kind)]
  }

  /** The customer's own flag, if set, decides; without one the rule of the bill's customer type, and only
      for a bill without a type that of the customer's. */
  predicate Exempt(db: Db, bill: Bill, customer: Customer) {
    || customer.skipApproval == Some(true)
    || (customer.skipApproval == None && bill.customerType.Some? && RuleSkips(db, bill.organization, bill.customerType.value))
    || (customer.skipApproval == None && bill.customerType == None && customer.customerType.Some?
        && RuleSkips(db, bill.organization, customer.customerType.value))
  }

  /** A credit bill may pass: it stays within the limit, or its customer is exempt, or an approval of the
      bill has been granted. */
  predicate MayPass(db: Db, bill: Bill, customer: Customer, limit: int) {
    || customer.balance + bill.total <= limit
    || Exempt(db, bill, customer)
    || exists i :: 0 <= i < |db.approvals| && db.approvals[i].bill == bill.id && db.approvals[i].status == Approved
  }

  /** What the gate makes of a bill: it lets it pass, refuses it for want of a customer or a limit, or
      files a request for exactly its amount. */
  lemma GateDecides(db: Db, bill: Bill, user: Id)
    ensures var (d, r) := AssertCreditLimitForBill(db, bill, user);
            if !bill.saleType.Credit? then d == db && r == Success(())
            else if bill.customer == None then d == db && r == Failure(BadRequest)
            else if bill.customer.value !in db.customers then d == db && r == Failure(NotFound)
            else var customer := db.customers[bill.customer.value];
              if customer.limit == None then d == db && r == Failure(BadRequest)
              else if MayPass(db, bill, customer, customer.limit.value) then d == db && r == Success(())
              else
                && r == Failure(LimitExceeded(|db.approvals|))
                && d == db.(approvals := db.approvals
                              + [Approval(bill.organization, bill.customer.value, bill.id, bill.total, user, Requested)])
  {
  }

  /** In a completion the gate stands first. An overridden call passes it unseen. */
  lemma GateStep(db: Db, p: Process)
    requires p.Process? && p.stage.Gate?
    ensures var gate := AssertCreditLimitForBill(db, p.bill, p.call.performedBy);
            if p.call.override || gate.1.Success? then Advance(db, p) == (db, p.(stage := Deduct))
            else Advance(db, p) == (gate.0, p.(stage := Failed(gate.1.error)))
  {
    GateDecides(db, p.bill, p.call.performedBy);
  }

  // ---- beginning ----

  /** A call finds every bill that is not deleted, and starts at the gate with the row as it is. */
  lemma Begins(db: Db, call: CompleteCall)
    ensures var p := Begin(db, call);
            if call.bill in db.bills && call.bill !in db.deletedBills
            then p.Process? && p.call == call && p.bill == db.bills[call.bill] && p.stage.Gate?
            else p.Missing?
  {
  }

  // ---- the stock transaction ----

  /** A black sale is drawn from the unpublished stock and any other from the published, and touches
      nothing else: each line's movement is recorded, for the user who completes the bill. */
  lemma SaleStepRecords(db: Db, p: Process)
    requires p.Process? && p.stage.Deduct? && Advance(db, p).1.stage.RecordCommission?
    ensures var d, black := Advance(db, p).0, p.bill.saleType == Black;
            var before := if black then db.unpublished.movements else db.published.movements;
            var after := if black then d.unpublished.movements else d.published.movements;
            && d == (if black then db.(unpublished := d.unpublished) else db.(published := d.published))
            && |after| == |before| + |p.bill.items|
            && forall j :: 0 <= j < |p.bill.items| ==>
                 IsLineRecord(after[|before| + j], p.bill, p.bill.items[j], p.call.performedBy)
  {
    LinesRecorded(SalePool(db, p.bill), p.bill, p.bill.items, p.call.performedBy);
  }

  /** And each row of the bill's organization and location there falls by what the lines ask of its product. */
  lemma SaleStepTakes(db: Db, p: Process, row: RowId)
    requires WellFormed(db.published) && WellFormed(db.unpublished)
    requires p.Process? && p.stage.Deduct? && Advance(db, p).1.stage.RecordCommission?
    ensures var d, black := Advance(db, p).0, p.bill.saleType == Black;
            var before := if black then db.unpublished else db.published;
            var after := if black then d.unpublished else d.published;
            var had := QtyOf(before, row);
            QtyOf(after, row) == Qty(had.onHand - Sold(before, p.bill, p.bill.items, row), had.reserved)
  {
    LinesSucceedIffCovered(SalePool(db, p.bill), p.bill, p.bill.items, p.call.performedBy);
  }

  /** A sale that fails is a bad request and leaves every table as it was. */
  lemma SaleStepFails(db: Db, p: Process)
    requires p.Process? && p.stage.Deduct? && !Advance(db, p).1.stage.RecordCommission?
    ensures Advance(db, p) == (db, p.(stage := Failed(BadRequest)))
  {
    LinesFail(SalePool(db, p.bill), p.bill, p.bill.items, p.call.performedBy);
  }

  // ---- the commission ----

  /** Someone has brought the bill about and is owed something for it. */
  predicate Commissioned(bill: Bill) {
    bill.saleType == Black && (bill.facilitatorUser != None || bill.facilitatorName != "") && bill.commission != 0
  }

  /** A row of the bill's organization and id, for its facilitator and exactly its commission. */
  predicate IsCommissionFor(c: Commission, bill: Bill) {
    && c.organization == bill.organization && c.bill == bill.id && c.amount == bill.commission
    && c.facilitatorUser == bill.facilitatorUser && c.facilitatorName == bill.facilitatorName
  }

  /** The commission step adds one row, for exactly the bill's commission, if the bill is commissioned, and
      none otherwise; it writes nothing else. */
  lemma CommissionStep(db: Db, p: Process)
    requires p.Process? && p.stage.RecordCommission?
    ensures var bill, (d, q) := p.bill, Advance(db, p);
            && (Commissioned(bill) ==>
                  && |d.commissions| == |db.commissions| + 1 && db.commissions <= d.commissions
                  && IsCommissionFor(d.commissions[|db.commissions|], bill))
            && (!Commissioned(bill) ==> d.commissions == db.commissions)
            && d == db.(commissions := d.commissions)
            && q == p.(stage := if bill.saleType.Credit? then ReadCustomer else Close)
  {
  }

  // ---- the bill row ----

  /** Closing sets status and time, the payment method if the call names one, and keeps the stored lines;
      every other column is that of the loaded copy. */
  lemma CloseStep(db: Db, p: Process)
    requires p.Process? && p.stage.Close?
    ensures var (d, q) := Advance(db, p);
            && p.bill.id in d.bills && q == p.(stage := Finished)
            && (var row, named := d.bills[p.bill.id], p.call.paymentMethod;
                && row.status == Closed && row.billedAt == Some(p.call.now)
                && row.paymentMethod == (if named == None || named == Some("") then p.bill.paymentMethod else named)
                && row.items == (if p.bill.id in db.bills then db.bills[p.bill.id].items else p.bill.items)
                && row.(status := p.bill.status, billedAt := p.bill.billedAt, paymentMethod := p.bill.paymentMethod,
                        items := p.bill.items) == p.bill)
            && d == db.(bills := db.bills[p.bill.id := d.bills[p.bill.id]])
  {
  }

  // ---- the credit ----

  /** The three steps of a charge: the customer as stored, the whole record with the new balance, and the
      transaction between the two balances. */
  lemma CreditSteps(db: Db, p: Process)
    requires p.Process? && p.bill.customer.Some?
    ensures var (d, q), id := Advance(db, p), p.bill.customer.value;
            match p.stage
            case ReadCustomer =>
              d == db && q == p.(stage := if id in db.customers then WriteBalance(db.customers[id]) else Failed(NotFound))
            case WriteBalance(c) =>
              && d == db.(customers := db.customers[
                   id := Customer(c.limit, c.balance + p.bill.total, c.customerType, c.skipApproval)])
              && q == p.(stage := WriteTxn(c.balance))
            case WriteTxn(before) =>
              && d == db.(creditTxns := db.creditTxns
                            + [CreditTxn(id, p.bill.id, p.bill.total, before, before + p.bill.total, p.call.performedBy)])
              && q == p.(stage := Close)
            case _ => true
  {
  }
}
