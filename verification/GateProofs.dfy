/** The credit gate and the dispatch decision agree about approval requests. */
module GateProofs {
  import opened StockPool
  import opened Tables
  import opened StockOrchestration
  import opened StockProofs
  import opened BillCompletion
  import opened Runs

  /** The gate files exactly one pending request when it throws limit-exceeded, and none otherwise. */
  lemma GateFilesOneRequest(db: Db, bill: Bill, user: Id)
    ensures var (d, r) := AssertCreditLimitForBill(db, bill, user);
            if r.Failure? && r.error.LimitExceeded?
            then r.error.approvalRequest == |db.approvals| && |d.approvals| == |db.approvals| + 1
                 && d == db.(approvals := d.approvals) && db.approvals <= d.approvals
                 && d.approvals[|db.approvals|].bill == bill.id && d.approvals[|db.approvals|].status == Requested
            else d == db
  {
  }

  predicate ApprovalKept(db: Db, d: Db, i: nat) {
    i < |db.approvals| ==> i < |d.approvals| && d.approvals[i] == db.approvals[i]
  }

  ghost predicate IdsMatch(db: Db) {
    forall id <- db.bills :: db.bills[id].id == id
  }

  /** The bill the request deletes, if it may. */
  function Removed(db: Db, r: Request): set<Id> {
    if r.DeleteBill? && r.removed in db.bills && !db.bills[r.removed].status.Closed? && !db.bills[r.removed].status.Voided?
    then {r.removed} else {}
  }

  /** What a request leaves alone: known orders and bills, and which bill is an order's. */
  ghost predicate Keeps(db: Db, d: Db, gone: set<Id>) {
    && d.orders.Keys == db.orders.Keys && d.billOfOrder == db.billOfOrder
    && d.deletedBills == db.deletedBills + gone
    && db.bills.Keys <= d.bills.Keys && IdsMatch(d)
  }

  lemma AdvanceKeeps(db: Db, p: Process, i: nat)
    requires IdsMatch(db) && (p.Process? ==> p.bill.id in db.bills)
    ensures ApprovalKept(db, Advance(db, p).0, i) && Keeps(db, Advance(db, p).0, {})
    ensures Advance(db, p).1.Process? ==> p.Process? && Advance(db, p).1.bill == p.bill
  {
    AdvanceKeepsProcess(db, p);
    AdvanceFrame(db, p);
  }

  lemma {:induction false} DriveKeeps(db: Db, p: Process, k: nat, i: nat) returns (end: Db)
    requires IdsMatch(db) && (p.Process? ==> p.bill.id in db.bills)
    ensures end == Drive(db, p, k).0 && ApprovalKept(db, end, i) && Keeps(db, end, {})
    decreases k
  {
    if k == 0 {
      end := db;
    } else {
      var (d, q) := Advance(db, p);
      AdvanceKeeps(db, p, i);
      end := DriveKeeps(d, q, k - 1, i);
    }
  }

  lemma StockKeeps(db: Db, call: StockCall, i: nat)
    requires IdsMatch(db)
    ensures ApprovalKept(db, Exec(db, call), i) && Keeps(db, Exec(db, call), {})
  {
    ExecFrame(db, call);
  }

  lemma GateKeeps(db: Db, bill: Bill, user: Id, i: nat)
    requires IdsMatch(db)
    ensures var d := AssertCreditLimitForBill(db, bill, user).0; ApprovalKept(db, d, i) && Keeps(db, d, {})
  {
    GateFilesOneRequest(db, bill, user);
  }

  lemma RegistrationKeeps(db: Db, bill: Bill, i: nat)
    requires IdsMatch(db)
    ensures ApprovalKept(db, Serve(db, RegisterBill(bill)), i) && Keeps(db, Serve(db, RegisterBill(bill)), {})
  {
  }

  lemma EditKeeps(db: Db, bill: Bill, i: nat)
    requires IdsMatch(db)
    ensures ApprovalKept(db, Serve(db, EditBill(bill)), i) && Keeps(db, Serve(db, EditBill(bill)), {})
  {
  }

  lemma VoidingKeeps(db: Db, id: Id, i: nat)
    requires IdsMatch(db)
    ensures ApprovalKept(db, Serve(db, VoidBill(id)), i) && Keeps(db, Serve(db, VoidBill(id)), {})
  {
  }

  lemma DeletionKeeps(db: Db, id: Id, i: nat)
    requires IdsMatch(db)
    ensures var r := DeleteBill(id); ApprovalKept(db, Serve(db, r), i) && Keeps(db, Serve(db, r), Removed(db, r))
  {
  }

  lemma ApprovalsKeep(db: Db, approvals: seq<Approval>, i: nat)
    requires i < |db.approvals| ==> i < |approvals| && approvals[i] == db.approvals[i]
    requires IdsMatch(db)
    ensures ApprovalKept(db, db.(approvals := approvals), i) && Keeps(db, db.(approvals := approvals), {})
  {
  }

  lemma DecisionKeeps(db: Db, j: nat, decision: ApprovalStatus, i: nat)
    requires IdsMatch(db)
    requires j == i && i < |db.approvals| ==> db.approvals[i].status != Requested
    ensures var d := Serve(db, Decide(j, decision)); ApprovalKept(db, d, i) && Keeps(db, d, {})
  {
    var approvals := if j < |db.approvals| && db.approvals[j].status == Requested
                     then db.approvals[j := db.approvals[j].(status := decision)] else db.approvals;
    ApprovalsKeep(db, approvals, i);
    assert Serve(db, Decide(j, decision)) == db.(approvals := approvals);
  }

  lemma PaymentKeeps(db: Db, r: Request, i: nat)
    requires IdsMatch(db) && (r.Pay? || r.Sync?)
    ensures ApprovalKept(db, Serve(db, r), i) && Keeps(db, Serve(db, r), {})
  {
  }

  lemma ServeKeeps(db: Db, r: Request, i: nat)
    requires IdsMatch(db)
    requires r.Decide? && r.approval == i && i < |db.approvals| ==> db.approvals[i].status != Requested
    ensures ApprovalKept(db, Serve(db, r), i) && Keeps(db, Serve(db, r), Removed(db, r))
  {
    match r
    case StockRequest(call) => StockKeeps(db, call, i);
    case CompleteRequest(call, k) => var end := DriveKeeps(db, Begin(db, call), k, i);
    case GateRequest(bill, user) => GateKeeps(db, bill, user, i);
    case RegisterBill(bill) => RegistrationKeeps(db, bill, i);
    case EditBill(bill) => EditKeeps(db, bill, i);
    case VoidBill(id) => VoidingKeeps(db, id, i);
    case DeleteBill(id) => DeletionKeeps(db, id, i);
    case Decide(j, decision) => DecisionKeeps(db, j, decision, i);
    case _ => PaymentKeeps(db, r, i);
  }
}
