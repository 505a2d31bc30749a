/** Every completed bill has been settled, in every state of every interleaving. */
module CrashSafety {
  import opened Wrappers
  import opened StockPool
  import opened Tables
  import opened StockOrchestration
  import opened StockProofs
  import opened BillCompletion
  import opened BillProofs
  import opened BillEffects
  import opened Runs
  import opened GateProofs
  import opened Isolation
  import opened Interleaving

  /** The sale's movements stand together in the pool's list, one per line, in order. */
  predicate HasSaleMovements(db: Db, bill: Bill, at: nat) {
    var p := SalePool(db, bill);
    && at + |bill.items| <= |p.movements|
    && forall j :: 0 <= j < |bill.items| ==> IsSaleMovement(p, p.movements[at + j], bill, bill.items[j])
  }

  ghost predicate StockTaken(db: Db, bill: Bill) {
    exists at: nat :: HasSaleMovements(db, bill, at)
  }

  predicate CommissionRecorded(db: Db, bill: Bill) {
    Commissioned(bill) ==> exists c <- db.commissions :: IsCommissionFor(c, bill)
  }

  predicate IsTxnOf(t: CreditTxn, bill: Bill) {
    t.bill == bill.id && bill.customer == Some(t.customer) && t.amount == bill.total && t.after == t.before + t.amount
  }

  ghost predicate CreditRecorded(db: Db, bill: Bill) {
    bill.saleType.Credit? ==> exists t :: t in db.creditTxns && IsTxnOf(t, bill)
  }

  ghost predicate Settled(db: Db, bill: Bill) {
    StockTaken(db, bill) && CommissionRecorded(db, bill) && CreditRecorded(db, bill)
  }

  /** What a call in progress has already done. */
  ghost predicate Progress(db: Db, p: Process) {
    p.Process? ==>
      match p.stage
      case RecordCommission => StockTaken(db, p.bill)
      case ReadCustomer => StockTaken(db, p.bill) && CommissionRecorded(db, p.bill)
      case WriteBalance(_) => StockTaken(db, p.bill) && CommissionRecorded(db, p.bill)
      case WriteTxn(_) => StockTaken(db, p.bill) && CommissionRecorded(db, p.bill)
      case Close => Settled(db, p.bill)
      case _ => true
  }

  /** The columns of a bill that completing, voiding and closing never change. */
  function Fixed(bill: Bill): Bill {
    bill.(status := Initiated, billedAt := None, paymentMethod := None)
  }

  /** The columns that an edit does not change either. */
  function Core(bill: Bill): Bill {
    Fixed(bill).(items := [], total := 0, location := 0, customer := None)
  }

  /** What a run has done to bills so far: the copies completions have loaded, and the ids of bills whose
      lines or header have been edited. */
  datatype History = History(loads: set<Bill>, edited: set<Id>)

  /** The same bill, up to edits if it has been edited. */
  predicate Agrees(a: Bill, b: Bill, h: History) {
    Core(a) == Core(b) && (b.id !in h.edited ==> Fixed(a) == Fixed(b))
  }

  /** A completion loaded the bill and settled what it loaded: the bill as it stands, unless it has been edited. */
  ghost predicate Evidenced(db: Db, bill: Bill, h: History) {
    exists sold <- h.loads :: Settled(db, sold) && Agrees(sold, bill, h)
  }

  ghost predicate SafeDb(db: Db, h: History) {
    && PoolsWellFormed(db)
    && (forall id <- db.bills :: db.bills[id].id == id)
    && (forall id <- db.bills :: db.bills[id].status.Closed? ==> Evidenced(db, db.bills[id], h))
  }

  /** The call works on a copy it really loaded. */
  predicate Tracks(db: Db, p: Process, h: History) {
    p.Process? ==>
      p.bill in h.loads && p.bill.id in db.bills && Agrees(db.bills[p.bill.id], p.bill, h)
  }

  /** What an edit in progress may write back: if it has loaded a completed bill, that had its evidence. */
  ghost predicate DraftSafe(db: Db, draft: Bill, h: History) {
    && draft.id in db.bills && Core(draft) == Core(db.bills[draft.id])
    && (draft.status.Closed? ==> Evidenced(db, draft, h))
  }

  /** Every completed bill has its evidence, and every call in progress its earlier steps done. */
  ghost predicate Safe(w: World, h: History) {
    && SafeDb(w.db, h) && CopiesFit(w)
    && (forall e <- w.drafts :: DraftSafe(w.db, w.drafts[e], h))
    && forall pid <- w.processes :: Progress(w.db, w.processes[pid]) && Tracks(w.db, w.processes[pid], h)
  }

  /** Nothing that counts as evidence is ever removed. */
  ghost predicate KeepsLedgers(a: Db, b: Db) {
    BothGrow(a, b) && a.creditTxns <= b.creditTxns && a.commissions <= b.commissions
  }

  /** Bills stay, and those not edited keep their fixed columns. */
  predicate KeepsBills(a: Db, b: Db, edited: set<Id>) {
    forall id <- a.bills ::
      id in b.bills && Core(b.bills[id]) == Core(a.bills[id]) && (id !in edited ==> Fixed(b.bills[id]) == Fixed(a.bills[id]))
  }

  ghost predicate KeepsEvidence(a: Db, b: Db, edited: set<Id>) {
    KeepsLedgers(a, b) && KeepsBills(a, b, edited)
  }

  lemma FixedKeepsEvidence(db: Db, a: Bill, b: Bill)
    requires Fixed(a) == Fixed(b)
    ensures StockTaken(db, a) == StockTaken(db, b) && CommissionRecorded(db, a) == CommissionRecorded(db, b)
    ensures CreditRecorded(db, a) == CreditRecorded(db, b)
  {
    assert a.id == b.id && a.items == b.items && a.saleType == b.saleType && a.number == b.number;
    assert forall at: nat :: HasSaleMovements(db, a, at) == HasSaleMovements(db, b, at);
    assert forall t :: IsTxnOf(t, a) == IsTxnOf(t, b);
  }

  lemma MovementsStay(a: Db, b: Db, bill: Bill, at: nat)
    requires KeepsLedgers(a, b) && HasSaleMovements(a, bill, at)
    ensures HasSaleMovements(b, bill, at)
  {
    var p, q := SalePool(a, bill), SalePool(b, bill);
    assert p.movements <= q.movements && Grows(p, q);
    forall j | 0 <= j < |bill.items| ensures IsSaleMovement(q, q.movements[at + j], bill, bill.items[j]) {
      assert IsSaleMovement(p, p.movements[at + j], bill, bill.items[j]);
      assert KeyOf(q, q.movements[at + j].row) == KeyOf(p, q.movements[at + j].row);
    }
  }

  lemma StockStaysTaken(a: Db, b: Db, bill: Bill)
    requires KeepsLedgers(a, b) && StockTaken(a, bill)
    ensures StockTaken(b, bill)
  {
    var at: nat :| HasSaleMovements(a, bill, at);
    MovementsStay(a, b, bill, at);
  }

  lemma EvidenceStays(a: Db, b: Db, bill: Bill)
    requires KeepsLedgers(a, b)
    ensures StockTaken(a, bill) ==> StockTaken(b, bill)
    ensures CommissionRecorded(a, bill) ==> CommissionRecorded(b, bill)
    ensures CreditRecorded(a, bill) ==> CreditRecorded(b, bill)
  {
    if StockTaken(a, bill) {
      StockStaysTaken(a, b, bill);
    }
  }

  lemma ProgressStays(a: Db, b: Db, p: Process, h: History, h': History)
    requires KeepsEvidence(a, b, h'.edited) && Progress(a, p) && Tracks(a, p, h)
    requires h.loads <= h'.loads && h.edited <= h'.edited
    ensures Progress(b, p) && Tracks(b, p, h')
  {
    if p.Process? {
      EvidenceStays(a, b, p.bill);
    }
  }

  lemma AdvanceKeepsEvidence(db: Db, p: Process, h: History)
    requires PoolsWellFormed(db) && Tracks(db, p, h)
    ensures KeepsEvidence(db, Advance(db, p).0, h.edited)
  {
    AdvanceExplained(db, p);
    AdvanceFrame(db, p);
  }

  /** The stock transaction leaves one movement per line behind. */
  lemma DeductTakesStock(db: Db, p: Process)
    requires PoolsWellFormed(db) && p.Process? && p.stage.Deduct? && Advance(db, p).1.stage.RecordCommission?
    ensures HasSaleMovements(Advance(db, p).0, p.bill, |SalePool(db, p.bill).movements|)
    ensures |SalePool(Advance(db, p).0, p.bill).movements| == |SalePool(db, p.bill).movements| + |p.bill.items|
  {
    var d, pool := Advance(db, p).0, SalePool(db, p.bill);
    LinesSucceedIffCovered(pool, p.bill, p.bill.items, p.call.performedBy);
    var q := SalePool(d, p.bill);
    forall j | 0 <= j < |p.bill.items|
      ensures IsSaleMovement(q, q.movements[|pool.movements| + j], p.bill, p.bill.items[j])
    {
      var m := q.movements[|pool.movements| + j];
      assert IsSaleMovement(pool, m, p.bill, p.bill.items[j]);
      assert KeyOf(q, m.row) == KeyOf(pool, m.row);
    }
  }

  lemma RecordSteps(db: Db, p: Process)
    requires p.Process?
    ensures p.stage.RecordCommission? ==> CommissionRecorded(Advance(db, p).0, p.bill)
    ensures p.stage.WriteTxn? && p.bill.customer.Some? ==> CreditRecorded(Advance(db, p).0, p.bill)
    ensures p.stage.RecordCommission? && Advance(db, p).1.stage.Close? ==> !p.bill.saleType.Credit?
  {
    if p.stage.RecordCommission? && Commissioned(p.bill) {
      CommissionStep(db, p);
      assert IsCommissionFor(Advance(db, p).0.commissions[|db.commissions|], p.bill);
    }
    if p.stage.WriteTxn? && p.bill.customer.Some? {
      var d := Advance(db, p).0;
      assert IsTxnOf(d.creditTxns[|db.creditTxns|], p.bill);
    }
  }

  lemma AdvanceOrder(db: Db, p: Process)
    requires p.Process?
    ensures var q := Advance(db, p).1;
            match p.stage
            case Gate => q.stage.Deduct? || q.stage.Failed?
            case Deduct => q.stage.RecordCommission? || q.stage.Failed?
            case RecordCommission => q.stage.ReadCustomer? || q.stage.Close?
            case ReadCustomer => q.stage.WriteBalance? || q.stage.Failed?
            case WriteBalance(_) => q.stage.WriteTxn? || q.stage.Failed?
            case WriteTxn(_) => (q.stage.Close? && p.bill.customer.Some?) || q.stage.Failed?
            case Close => q.stage.Finished?
            case _ => q == p
  {
  }

  lemma AdvanceProgress(db: Db, p: Process, h: History)
    requires PoolsWellFormed(db) && Progress(db, p) && Tracks(db, p, h)
    ensures Progress(Advance(db, p).0, Advance(db, p).1) && Tracks(Advance(db, p).0, Advance(db, p).1, h)
  {
    AdvanceKeepsEvidence(db, p, h);
    AdvanceKeepsProcess(db, p);
    if p.Process? {
      var d := Advance(db, p).0;
      AdvanceOrder(db, p);
      EvidenceStays(db, d, p.bill);
      RecordSteps(db, p);
      if p.stage.Deduct? && Advance(db, p).1.stage.RecordCommission? {
        DeductTakesStock(db, p);
      }
    }
  }

  lemma DraftStaysSafe(a: Db, b: Db, draft: Bill, h: History, h': History)
    requires KeepsEvidence(a, b, h'.edited) && h.loads <= h'.loads && h.edited <= h'.edited && DraftSafe(a, draft, h)
    ensures DraftSafe(b, draft, h')
  {
    if draft.status.Closed? {
      var sold :| sold in h.loads && Settled(a, sold) && Agrees(sold, draft, h);
      EvidenceStays(a, b, sold);
    }
  }

  lemma EvidencedStays(a: Db, b: Db, id: Id, h: History, h': History)
    requires KeepsEvidence(a, b, h'.edited) && h.loads <= h'.loads && h.edited <= h'.edited
    requires id in a.bills && a.bills[id].id == id && id in b.bills && b.bills[id].id == id
    requires Evidenced(a, a.bills[id], h)
    ensures Evidenced(b, b.bills[id], h')
  {
    var sold :| sold in h.loads && Settled(a, sold) && Agrees(sold, a.bills[id], h);
    EvidenceStays(a, b, sold);
  }

  lemma SafeStays(a: Db, b: Db, h: History, h': History)
    requires SafeDb(a, h) && KeepsEvidence(a, b, h'.edited) && h.loads <= h'.loads && h.edited <= h'.edited
    requires forall id <- b.bills :: b.bills[id].id == id
    requires forall id <- b.bills :: b.bills[id].status.Closed? ==>
               Evidenced(b, b.bills[id], h') || (id in a.bills && a.bills[id].status.Closed?)
    ensures SafeDb(b, h')
  {
    forall id <- b.bills | b.bills[id].status.Closed? ensures Evidenced(b, b.bills[id], h') {
      if id in a.bills && a.bills[id].status.Closed? {
        EvidencedStays(a, b, id, h, h');
      }
    }
  }

  /** The row a completion writes carries the evidence of the copy it loaded. */
  lemma ClosingEvidenced(db: Db, p: Process, h: History)
    requires p.Process? && p.stage.Close? && Progress(db, p) && Tracks(db, p, h)
    requires KeepsLedgers(db, Advance(db, p).0)
    ensures Evidenced(Advance(db, p).0, ClosedRow(db, p.bill, p.call), h)
  {
    EvidenceStays(db, Advance(db, p).0, p.bill);
    assert Agrees(p.bill, ClosedRow(db, p.bill, p.call), h);
  }

  lemma AdvanceSafe(db: Db, p: Process, h: History)
    requires SafeDb(db, h) && Progress(db, p) && Tracks(db, p, h)
    ensures SafeDb(Advance(db, p).0, h) && KeepsEvidence(db, Advance(db, p).0, h.edited)
  {
    AdvanceKeepsEvidence(db, p, h);
    if p.Process? && p.stage.Close? {
      ClosingEvidenced(db, p, h);
    }
    AdvanceCloses(db, p);
    SafeStays(db, Advance(db, p).0, h, h);
  }

  /** A step writes a bill's row at most once, when it closes it. */
  lemma AdvanceCloses(db: Db, p: Process)
    requires forall id <- db.bills :: db.bills[id].id == id
    ensures forall id <- Advance(db, p).0.bills ::
              var bill := Advance(db, p).0.bills[id];
              && bill.id == id
              && ((p.Process? && p.stage.Close? && bill == ClosedRow(db, p.bill, p.call)) || (id in db.bills && bill == db.bills[id]))
  {
    AdvanceFrame(db, p);
  }

  lemma EvidenceRefl(db: Db, edited: set<Id>)
    requires PoolsWellFormed(db)
    ensures KeepsEvidence(db, db, edited)
  {
    BothRefl(db, db);
  }

  lemma EvidenceTrans(a: Db, b: Db, c: Db, edited: set<Id>)
    requires KeepsEvidence(a, b, edited) && KeepsEvidence(b, c, edited)
    ensures KeepsEvidence(a, c, edited)
  {
    GrowTrans(a, b, c);
  }

  /** The tables are safe and the call's own progress is true of them. */
  ghost predicate SafeCall(db: Db, p: Process, h: History) {
    SafeDb(db, h) && Progress(db, p) && Tracks(db, p, h)
  }

  lemma AdvanceSafeCall(db: Db, p: Process, h: History)
    requires SafeCall(db, p, h)
    ensures SafeCall(Advance(db, p).0, Advance(db, p).1, h) && KeepsEvidence(db, Advance(db, p).0, h.edited)
  {
    AdvanceSafe(db, p, h);
    AdvanceProgress(db, p, h);
  }

  /** What every step keeps holds however far a call is driven. */
  lemma {:induction false} DriveKeeps(db: Db, p: Process, k: nat, inv: (Db, Process) -> bool)
    requires inv(db, p)
    requires forall d, q {:trigger Advance(d, q)} :: inv(d, q) ==> inv(Advance(d, q).0, Advance(d, q).1)
    ensures inv(Drive(db, p, k).0, Drive(db, p, k).1)
    decreases k
  {
    if k > 0 {
      DriveKeeps(Advance(db, p).0, Advance(db, p).1, k - 1, inv);
    }
  }

  lemma SafeStep(db: Db, d: Db, q: Process, h: History)
    requires SafeCall(d, q, h) && KeepsEvidence(db, d, h.edited)
    ensures SafeCall(Advance(d, q).0, Advance(d, q).1, h) && KeepsEvidence(db, Advance(d, q).0, h.edited)
  {
    AdvanceSafeCall(d, q, h);
    EvidenceTrans(db, d, Advance(d, q).0, h.edited);
  }

  lemma DriveSafe(db: Db, p: Process, k: nat, h: History)
    requires SafeCall(db, p, h)
    ensures SafeDb(Drive(db, p, k).0, h)
  {
    forall d, q | SafeCall(d, q, h) {
      AdvanceSafeCall(d, q, h);
    }
    DriveKeeps(db, p, k, (d, q) => SafeCall(d, q, h));
  }

  lemma DriveKeepsEvidence(db: Db, p: Process, k: nat, h: History)
    requires SafeCall(db, p, h)
    ensures KeepsEvidence(db, Drive(db, p, k).0, h.edited)
  {
    EvidenceRefl(db, h.edited);
    forall d, q | SafeCall(d, q, h) && KeepsEvidence(db, d, h.edited) {
      SafeStep(db, d, q, h);
    }
    DriveKeeps(db, p, k, (d, q) => SafeCall(d, q, h) && KeepsEvidence(db, d, h.edited));
  }

  lemma StockSafe(db: Db, call: StockCall, h: History)
    requires SafeDb(db, h)
    ensures SafeDb(Exec(db, call), h) && KeepsEvidence(db, Exec(db, call), h.edited)
  {
    ExecExplained(db, call);
    ExecFrame(db, call);
    SafeStays(db, Exec(db, call), h, h);
  }

  /** Stock and ledgers untouched, no bill newly completed, and none changed but its status and the edited ones. */
  ghost predicate QuietChange(a: Db, b: Db, edited: set<Id>) {
    && b.published == a.published && b.unpublished == a.unpublished
    && b.creditTxns == a.creditTxns && b.commissions == a.commissions && KeepsBills(a, b, edited)
    && (forall id <- b.bills :: b.bills[id].id == id
          && (b.bills[id].status.Closed? ==> id in a.bills && a.bills[id].status.Closed?))
  }

  lemma QuietSafe(a: Db, b: Db, h: History, h': History)
    requires SafeDb(a, h) && QuietChange(a, b, h'.edited) && h.loads <= h'.loads && h.edited <= h'.edited
    ensures SafeDb(b, h') && KeepsEvidence(a, b, h'.edited)
  {
    BothRefl(a, b);
    SafeStays(a, b, h, h');
  }

  lemma PutBillIsQuiet(db: Db, bill: Bill, h: History, edited: set<Id>)
    requires SafeDb(db, h) && (bill.status.Closed? ==> bill.id in db.bills && db.bills[bill.id].status.Closed?)
    requires bill.id in db.bills ==>
               Core(bill) == Core(db.bills[bill.id]) && (bill.id !in edited ==> Fixed(bill) == Fixed(db.bills[bill.id]))
    ensures QuietChange(db, db.(bills := db.bills[bill.id := bill]), edited)
  {
  }

  lemma SameBillsIsQuiet(a: Db, b: Db, h: History, edited: set<Id>)
    requires SafeDb(a, h) && b.bills == a.bills && b.published == a.published && b.unpublished == a.unpublished
    requires b.creditTxns == a.creditTxns && b.commissions == a.commissions
    ensures QuietChange(a, b, edited)
  {
  }

  lemma RegistrationIsQuiet(db: Db, bill: Bill, h: History)
    requires SafeDb(db, h)
    ensures QuietChange(db, Serve(db, RegisterBill(bill)), h.edited)
  {
    if bill.id in db.bills || bill.status.Closed? {
      SameBillsIsQuiet(db, db, h, h.edited);
    } else {
      PutBillIsQuiet(db, bill, h, h.edited);
    }
  }

  lemma EditIsQuiet(db: Db, bill: Bill, h: History)
    requires SafeDb(db, h)
    ensures QuietChange(db, Serve(db, EditBill(bill)), h.edited + EditedBy(db, EditBill(bill)))
  {
    if bill.id in db.bills && bill.id !in db.deletedBills {
      PutBillIsQuiet(db, Edited(db.bills[bill.id], bill), h, h.edited + {bill.id});
    } else {
      SameBillsIsQuiet(db, db, h, h.edited);
    }
  }

  lemma VoidIsQuiet(db: Db, id: Id, h: History)
    requires SafeDb(db, h)
    ensures QuietChange(db, Serve(db, VoidBill(id)), h.edited)
  {
    if id in db.bills && id !in db.deletedBills {
      PutBillIsQuiet(db, db.bills[id].(status := Voided), h, h.edited);
    } else {
      SameBillsIsQuiet(db, db, h, h.edited);
    }
  }

  lemma GateIsQuiet(db: Db, bill: Bill, user: Id, h: History)
    requires SafeDb(db, h)
    ensures QuietChange(db, Serve(db, GateRequest(bill, user)), h.edited)
  {
    GateFilesOneRequest(db, bill, user);
    SameBillsIsQuiet(db, Serve(db, GateRequest(bill, user)), h, h.edited);
  }

  lemma OtherRequestFrame(db: Db, r: Request)
    requires r.Decide? || r.Pay? || r.Sync? || r.DeleteBill?
    ensures var d := Serve(db, r);
            d == db.(approvals := d.approvals, payments := d.payments, orders := d.orders, deletedBills := d.deletedBills)
  {
  }

  lemma OtherRequestIsQuiet(db: Db, r: Request, h: History)
    requires SafeDb(db, h) && (r.Decide? || r.Pay? || r.Sync? || r.DeleteBill?)
    ensures QuietChange(db, Serve(db, r), h.edited)
  {
    OtherRequestFrame(db, r);
    SameBillsIsQuiet(db, Serve(db, r), h, h.edited);
  }

  // ---- histories ----

  function LoadedBy(db: Db, call: CompleteCall): set<Bill> {
    if Begin(db, call).Process? then {Begin(db, call).bill} else {}
  }

  function EditedBy(db: Db, r: Request): set<Id> {
    if r.EditBill? && r.edited.id in db.bills && r.edited.id !in db.deletedBills then {r.edited.id} else {}
  }

  function Served(db: Db, r: Request, h: History): History {
    History(h.loads + (if r.CompleteRequest? then LoadedBy(db, r.call) else {}), h.edited + EditedBy(db, r))
  }

  function Next(w: World, e: Event, h: History): History {
    match e
    case Serving(r) => Served(w.db, r, h)
    case Begins(pid, call) => if pid in w.processes then h else h.(loads := h.loads + LoadedBy(w.db, call))
    case CommitsEdit(d, _, _) => if d in w.drafts then h.(edited := h.edited + {w.drafts[d].id}) else h
    case _ => h
  }

  function HistoryAfter(w: World, es: seq<Event>, h: History): History
    decreases |es|
  {
    if es == [] then h else HistoryAfter(Step(w, es[0]), es[1..], Next(w, es[0], h))
  }

  lemma SafeLonger(db: Db, h: History, h': History)
    requires SafeDb(db, h) && h.loads <= h'.loads && h.edited <= h'.edited
    ensures SafeDb(db, h')
  {
    SameBillsIsQuiet(db, db, h, h'.edited);
    QuietSafe(db, db, h, h');
  }

  lemma CompletionSafe(db: Db, call: CompleteCall, k: nat, h: History)
    requires SafeDb(db, h)
    ensures var h' := Served(db, CompleteRequest(call, k), h);
            SafeDb(Drive(db, Begin(db, call), k).0, h') && KeepsEvidence(db, Drive(db, Begin(db, call), k).0, h'.edited)
  {
    var h' := Served(db, CompleteRequest(call, k), h);
    SafeLonger(db, h, h');
    DriveSafe(db, Begin(db, call), k, h');
    DriveKeepsEvidence(db, Begin(db, call), k, h');
  }

  lemma ServeSafe(db: Db, r: Request, h: History)
    requires SafeDb(db, h)
    ensures SafeDb(Serve(db, r), Served(db, r, h)) && KeepsEvidence(db, Serve(db, r), Served(db, r, h).edited)
  {
    if r.StockRequest? {
      StockSafe(db, r.stock, h);
      assert Served(db, r, h) == h;
    } else if r.CompleteRequest? {
      CompletionSafe(db, r.call, r.lifetime, h);
    } else {
      QuietRequest(db, r, h);
      QuietSafe(db, Serve(db, r), h, Served(db, r, h));
    }
  }

  lemma QuietRequest(db: Db, r: Request, h: History)
    requires SafeDb(db, h) && !r.StockRequest? && !r.CompleteRequest?
    ensures QuietChange(db, Serve(db, r), Served(db, r, h).edited)
  {
    if r.EditBill? {
      EditIsQuiet(db, r.edited, h);
    } else {
      assert Served(db, r, h).edited == h.edited;
      match r
      case GateRequest(bill, user) => GateIsQuiet(db, bill, user, h);
      case RegisterBill(bill) => RegistrationIsQuiet(db, bill, h);
      case VoidBill(id) => VoidIsQuiet(db, id, h);
      case _ => OtherRequestIsQuiet(db, r, h);
    }
  }

  // ---- commits on what was read ----

  lemma CommitSafe(db: Db, call: StockCall, c: Copies, h: History)
    requires SafeDb(db, h) && BothFit(db, c)
    ensures SafeDb(ExecOn(db, call, c), h) && KeepsEvidence(db, ExecOn(db, call, c), h.edited)
  {
    CommitGrows(db, call, c);
    ExecOnFrame(db, call, c);
    StockOnlySafe(db, ExecOn(db, call, c), h);
  }

  /** Saving touches nothing of the movements the sale has posted but the quantity they report as before. */
  lemma SavedSaleTakesStock(db: Db, p: Process, c: Copies)
    requires PoolsWellFormed(db) && BothFit(db, c) && SaleArrives(db, p, c)
    ensures HasSaleMovements(AdvanceOn(db, p, c).0, p.bill, |SalePool(db, p.bill).movements|)
  {
    var d, e := SaleSeen(db, p, c), AdvanceOn(db, p, c).0;
    SeenGrows(db, c);
    SaleSaves(db, p, c);
    SaleSeenExplained(db, p, c);
    SaleGrows(db, p, c);
    DeductTakesStock(Seen(db, c), p);
    StampedSale(db, SavedDb(db, d), c, p.bill);
    SameEvidence(SalePool(db, p.bill), SalePool(Seen(db, c), p.bill), d, e, p.bill, |SalePool(db, p.bill).movements|);
  }

  lemma StampedSale(db: Db, d: Db, c: Copies, bill: Bill)
    requires Appends(db, d)
    ensures SameButBefore(SalePool(d, bill).movements, SalePool(Stamped(db, d, c), bill).movements)
  {
    StampedSame(db.published, d.published, c.firstPublished);
    StampedSame(db.unpublished, d.unpublished, c.firstUnpublished);
  }

  lemma SameEvidence(p: Pool, o: Pool, d: Db, e: Db, bill: Bill, at: nat)
    requires Grows(p, o) && Grows(o, SalePool(d, bill)) && Grows(p, SalePool(e, bill))
    requires SameButBefore(SalePool(d, bill).movements, SalePool(e, bill).movements) && HasSaleMovements(d, bill, at)
    ensures HasSaleMovements(e, bill, at)
  {
    var q, r := SalePool(d, bill), SalePool(e, bill);
    forall j | 0 <= j < |bill.items| ensures IsSaleMovement(r, r.movements[at + j], bill, bill.items[j]) {
      var m := r.movements[at + j];
      assert IsSaleMovement(q, q.movements[at + j], bill, bill.items[j]);
      assert KeyOf(q, m.row) == KeyOf(o, m.row) == KeyOf(p, m.row) == KeyOf(r, m.row);
    }
  }

  lemma StockOnlySafe(db: Db, d: Db, h: History)
    requires SafeDb(db, h) && BothGrow(db, d) && StockOnly(db, d)
    ensures SafeDb(d, h) && KeepsEvidence(db, d, h.edited)
  {
    SafeStays(db, d, h, h);
  }

  lemma SaleOnSafe(db: Db, p: Process, c: Copies, h: History)
    requires SafeCall(db, p, h) && BothFit(db, c) && SaleArrives(db, p, c)
    ensures SafeCall(AdvanceOn(db, p, c).0, AdvanceOn(db, p, c).1, h)
    ensures KeepsEvidence(db, AdvanceOn(db, p, c).0, h.edited)
  {
    AdvanceOnFrame(db, p, c);
    SaleGrows(db, p, c);
    SavedSaleTakesStock(db, p, c);
    StockOnlySafe(db, AdvanceOn(db, p, c).0, h);
  }

  lemma AdvanceOnSafe(db: Db, p: Process, c: Copies, h: History)
    requires SafeCall(db, p, h) && BothFit(db, c)
    ensures SafeCall(AdvanceOn(db, p, c).0, AdvanceOn(db, p, c).1, h)
    ensures KeepsEvidence(db, AdvanceOn(db, p, c).0, h.edited)
  {
    if SaleArrives(db, p, c) {
      SaleOnSafe(db, p, c, h);
    } else if p.Process? && p.stage.Deduct? {
      SameBillsIsQuiet(db, db, h, h.edited);
      QuietSafe(db, db, h, h);
    } else {
      AdvanceSafeCall(db, p, h);
      AdvanceSafe(db, p, h);
    }
  }

  // ---- every reachable state ----

  /** Beginnings, crashes, reads and decisions. */
  lemma QuietStep(w: World, e: Event, h: History)
    requires Safe(w, h) && !TouchesStock(e) && !e.CommitsEdit?
    ensures SafeDb(Step(w, e).db, Next(w, e, h)) && KeepsEvidence(w.db, Step(w, e).db, Next(w, e, h).edited)
  {
    QuietFrame(w, e);
    SameBillsIsQuiet(w.db, Step(w, e).db, h, Next(w, e, h).edited);
    QuietSafe(w.db, Step(w, e).db, h, Next(w, e, h));
  }

  lemma QuietFrame(w: World, e: Event)
    requires !TouchesStock(e) && !e.CommitsEdit?
    ensures Step(w, e).db.bills == w.db.bills
    ensures Step(w, e).db.published == w.db.published && Step(w, e).db.unpublished == w.db.unpublished
    ensures Step(w, e).db.creditTxns == w.db.creditTxns && Step(w, e).db.commissions == w.db.commissions
  {
    if !EventWrites(e) {
      ReadsLeaveTables(w, e);
    }
  }

  lemma IdleStep(w: World, e: Event, h: History)
    requires Safe(w, h) && Step(w, e).db == w.db && Next(w, e, h) == h
    ensures SafeDb(Step(w, e).db, h) && KeepsEvidence(w.db, Step(w, e).db, h.edited)
  {
    SameBillsIsQuiet(w.db, w.db, h, h.edited);
    QuietSafe(w.db, w.db, h, h);
  }

  /** An edit that has overlapped others writes back a status it has read. */
  lemma RewritingSafe(w: World, e: Event, h: History)
    requires Safe(w, h) && e.CommitsEdit? && e.edit in w.drafts
    ensures SafeDb(Step(w, e).db, Next(w, e, h)) && KeepsEvidence(w.db, Step(w, e).db, Next(w, e, h).edited)
  {
    var draft := w.drafts[e.edit];
    PutRewrittenSafe(w.db, draft, Rewritten(draft, e.edited, e.target), h, Next(w, e, h));
  }

  lemma PutRewrittenSafe(db: Db, draft: Bill, bill: Bill, h: History, h': History)
    requires SafeDb(db, h) && DraftSafe(db, draft, h) && Core(bill) == Core(draft)
    requires bill.status.Closed? ==> draft.status.Closed?
    requires h'.loads == h.loads && h'.edited == h.edited + {bill.id}
    ensures var d := db.(bills := db.bills[bill.id := bill]); SafeDb(d, h') && KeepsEvidence(db, d, h'.edited)
  {
    var d := db.(bills := db.bills[bill.id := bill]);
    assert Core(bill).id == bill.id && Core(draft).id == draft.id;
    BothRefl(db, d);
    RewrittenEvidenced(db, d, draft, bill, h, h');
    SafeStays(db, d, h, h');
  }

  lemma RewrittenEvidenced(a: Db, b: Db, draft: Bill, bill: Bill, h: History, h': History)
    requires KeepsLedgers(a, b) && DraftSafe(a, draft, h) && Core(bill) == Core(draft)
    requires h'.loads == h.loads && bill.id in h'.edited
    ensures draft.status.Closed? ==> Evidenced(b, bill, h')
  {
    if draft.status.Closed? {
      var sold :| sold in h.loads && Settled(a, sold) && Agrees(sold, draft, h);
      EvidenceStays(a, b, sold);
      assert Core(sold).id == Core(bill).id;
    }
  }

  lemma StepDbSafe(w: World, e: Event, h: History)
    requires Safe(w, h)
    ensures SafeDb(Step(w, e).db, Next(w, e, h)) && KeepsEvidence(w.db, Step(w, e).db, Next(w, e, h).edited)
  {
    match e
    case Serving(r) => ServeSafe(w.db, r, h);
    case Steps(pid) => if pid in w.processes { AdvanceSafe(w.db, w.processes[pid], h); } else { IdleStep(w, e, h); }
    case CommitsAdjustment(s, op) =>
      if s in w.snapshots { StockSafe(w.db, CommitAdjust(op, w.snapshots[s]), h); } else { IdleStep(w, e, h); }
    case CommitsStock(tx, call) => CommitSafe(w.db, call, CopiesOf(w, tx), h);
    case StepsOn(pid, tx) =>
      if pid in w.processes { AdvanceOnSafe(w.db, w.processes[pid], CopiesOf(w, tx), h); } else { IdleStep(w, e, h); }
    case CommitsEdit(d, _, _) => if d in w.drafts { RewritingSafe(w, e, h); } else { IdleStep(w, e, h); }
    case _ => QuietStep(w, e, h);
  }

  lemma StepCallSafe(w: World, e: Event, pid: nat, h: History)
    requires Safe(w, h) && pid in Step(w, e).processes && KeepsEvidence(w.db, Step(w, e).db, Next(w, e, h).edited)
    ensures Progress(Step(w, e).db, Step(w, e).processes[pid])
    ensures Tracks(Step(w, e).db, Step(w, e).processes[pid], Next(w, e, h))
  {
    if e.Steps? && e.pid == pid {
      AdvanceProgress(w.db, w.processes[pid], h);
    } else if e.StepsOn? && e.pid == pid {
      AdvanceOnSafe(w.db, w.processes[pid], CopiesOf(w, e.tx), h);
    } else if pid in w.processes {
      OtherCall(w, e, pid);
      ProgressStays(w.db, Step(w, e).db, w.processes[pid], h, Next(w, e, h));
    } else {
      NewCall(w, e, pid);
    }
  }

  lemma StepDraftSafe(w: World, e: Event, draft: nat, h: History)
    requires Safe(w, h) && draft in Step(w, e).drafts && KeepsEvidence(w.db, Step(w, e).db, Next(w, e, h).edited)
    ensures DraftSafe(Step(w, e).db, Step(w, e).drafts[draft], Next(w, e, h))
  {
    DraftRead(w, e, draft);
    if draft in w.drafts && Step(w, e).drafts[draft] == w.drafts[draft] {
      assert DraftSafe(w.db, w.drafts[draft], h);
    } else {
      RowIsSafeDraft(w.db, e.bill, h);
    }
    HistoryGrows(w, e, h);
    DraftStaysSafe(w.db, Step(w, e).db, Step(w, e).drafts[draft], h, Next(w, e, h));
  }

  lemma RowIsSafeDraft(db: Db, id: Id, h: History)
    requires SafeDb(db, h) && id in db.bills
    ensures DraftSafe(db, db.bills[id], h)
  {
  }

  lemma HistoryGrows(w: World, e: Event, h: History)
    ensures h.loads <= Next(w, e, h).loads && h.edited <= Next(w, e, h).edited
  {
  }

  lemma StepSafe(w: World, e: Event, h: History)
    requires Safe(w, h)
    ensures Safe(Step(w, e), Next(w, e, h))
  {
    StepFits(w, e);
    StepDbSafe(w, e, h);
    forall pid <- Step(w, e).processes
      ensures Progress(Step(w, e).db, Step(w, e).processes[pid])
      ensures Tracks(Step(w, e).db, Step(w, e).processes[pid], Next(w, e, h))
    {
      StepCallSafe(w, e, pid, h);
    }
    forall draft <- Step(w, e).drafts ensures DraftSafe(Step(w, e).db, Step(w, e).drafts[draft], Next(w, e, h)) {
      StepDraftSafe(w, e, draft, h);
    }
  }

  /** Crash-prefix safety: in every state reachable by any interleaving of requests, `completeBill`
      steps and crashes, a completed bill was loaded by a completion whose stock movements, commission
      and credit transaction stand there for exactly the lines and the amount it loaded; where the run
      has not edited the bill, these are the bill's own. */
  lemma {:induction false} CompletedBillsAreSettled(w: World, es: seq<Event>, h: History)
    requires Safe(w, h)
    ensures Safe(StepAll(w, es), HistoryAfter(w, es, h))
    decreases |es|
  {
    if es != [] {
      StepSafe(w, es[0], h);
      CompletedBillsAreSettled(Step(w, es[0]), es[1..], Next(w, es[0], h));
    }
  }

  /** Tables without completed bills, and nothing in progress. */
  ghost predicate FreshStart(w: World) {
    && PoolsWellFormed(w.db) && (forall id <- w.db.bills :: w.db.bills[id].id == id && !w.db.bills[id].status.Closed?)
    && w.processes == map[] && w.copies == map[] && w.drafts == map[]
  }

  /** From there on every completed bill the run has not edited is settled as it stands. */
  lemma UneditedBillsAreSettled(w: World, es: seq<Event>, id: Id)
    requires FreshStart(w) && id !in HistoryAfter(w, es, History({}, {})).edited
    ensures var db := StepAll(w, es).db; id in db.bills && db.bills[id].status.Closed? ==> Settled(db, db.bills[id])
  {
    var h, db := HistoryAfter(w, es, History({}, {})), StepAll(w, es).db;
    CompletedBillsAreSettled(w, es, History({}, {}));
    if id in db.bills && db.bills[id].status.Closed? {
      var sold :| sold in h.loads && Settled(db, sold) && Agrees(sold, db.bills[id], h);
      FixedKeepsEvidence(db, sold, db.bills[id]);
    }
  }
}
