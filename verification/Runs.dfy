/** Serial runs: one request is served to its end, or to its crash, before the next begins. */
module Runs {
  import opened Wrappers
  import opened StockPool
  import opened Tables
  import opened StockOrchestration
  import opened StockProofs
  import opened BillCompletion
  import opened BillEffects
  import opened Dispatch

  datatype Request =
    | StockRequest(stock: StockCall)
    | CompleteRequest(call: CompleteCall, lifetime: nat)
    | GateRequest(bill: Bill, requestedBy: Id)
    | RegisterBill(newBill: Bill)
    | EditBill(edited: Bill)
    | VoidBill(voided: Id)
    | DeleteBill(removed: Id)
    | Decide(approval: nat, decision: ApprovalStatus)
    | Pay(payment: Payment)
    | Sync(order: Id)

  /** An edit of lines or header, as its handlers make it, whatever the bill's status: the lines and the
      total that follows from them, the location and the customer. */
  function Edited(stored: Bill, bill: Bill): Bill {
    stored.(items := bill.items, total := bill.total, location := bill.location, customer := bill.customer)
  }

  function Serve(db: Db, r: Request): Db {
    match r
    case StockRequest(call) => Exec(db, call)
    case CompleteRequest(call, lifetime) => Drive(db, Begin(db, call), lifetime).0
    case GateRequest(bill, user) => AssertCreditLimitForBill(db, bill, user).0
    case RegisterBill(bill) =>
      if bill.id in db.bills || bill.status.Closed? then db else db.(bills := db.bills[bill.id := bill])
    case EditBill(bill) =>
      if bill.id in db.bills && bill.id !in db.deletedBills then db.(bills := db.bills[bill.id := Edited(db.bills[bill.id], bill)])
      else db
    case VoidBill(id) =>
      if id in db.bills && id !in db.deletedBills then db.(bills := db.bills[id := db.bills[id].(status := Voided)]) else db
    case DeleteBill(id) =>
      if id in db.bills && !db.bills[id].status.Closed? && !db.bills[id].status.Voided?
      then db.(deletedBills := db.deletedBills + {id}) else db
    case Decide(i, decision) =>
      if i < |db.approvals| && db.approvals[i].status == Requested
      then db.(approvals := db.approvals[i := db.approvals[i].(status := decision)]) else db
    case Pay(payment) => db.(payments := db.payments + [payment])
    case Sync(order) => SyncOrderPaymentStatus(db, order)
  }

  function ServeAll(db: Db, rs: seq<Request>): Db
    decreases |rs|
  {
    if rs == [] then db else ServeAll(Serve(db, rs[0]), rs[1..])
  }

  /** A payment raises what an order has paid by its amount exactly when it is completed and names the bill
      of the order, and changes nothing else of what blocks it. */
  lemma PaymentRaises(db: Db, payment: Payment, order: Id)
    requires order in db.orders
    ensures var before, after := EvaluateOrder(db, order), EvaluateOrder(Serve(db, Pay(payment)), order);
            var bill := BillFor(db, order);
            var names := bill.Some? && payment.reference == bill.value.id
                         && payment.referenceType == "bill" && payment.status == "completed";
            && after.amountPaid == before.amountPaid + (if names then payment.amount else 0)
            && after.amountRequired == before.amountRequired && after.timing == before.timing
            && after.canFulfill == before.canFulfill
  {
    var d := Serve(db, Pay(payment));
    assert BillFor(d, order) == BillFor(db, order);
    if BillFor(db, order).Some? {
      PaymentsCount(db.payments, payment, BillFor(db, order).value.id);
      assert HasApproval(d, BillFor(db, order).value.id, Requested) == HasApproval(db, BillFor(db, order).value.id, Requested);
    }
  }

  /** Cancelling changes a bill's status and nothing else. */
  lemma VoidingCancels(db: Db, id: Id)
    ensures var d := Serve(db, VoidBill(id));
            && d == db.(bills := d.bills) && d.bills.Keys == db.bills.Keys
            && forall other <- db.bills ::
                 if other == id && id !in db.deletedBills
                 then d.bills[other].status == Voided && d.bills[other].(status := db.bills[other].status) == db.bills[other]
                 else d.bills[other] == db.bills[other]
  {
  }

  // ---- what a completion does to its customer ----

  /** Why a credit bill may take its customer over the limit. */
  predicate Waived(db: Db, call: CompleteCall) {
    call.bill in db.bills &&
    (var bill := db.bills[call.bill];
     || call.override
     || HasApproval(db, bill.id, Approved)
     || (bill.customer.Some? && bill.customer.value in db.customers
         && Exempt(db, bill, db.customers[bill.customer.value])))
  }

  /** The call charged bill `b` to its customer; `logged` tells whether it also wrote the transaction. */
  ghost predicate Charges(db: Db, call: CompleteCall, d: Db, b: Bill, logged: bool) {
    && call.bill in db.bills && b == db.bills[call.bill]
    && b.saleType.Credit? && b.customer.Some? && b.customer.value in db.customers
    && (var c := db.customers[b.customer.value];
        && d.customers == db.customers[b.customer.value := c.(balance := c.balance + b.total)]
        && d.creditTxns == db.creditTxns
             + (if logged then [CreditTxn(b.customer.value, b.id, b.total, c.balance, c.balance + b.total, call.performedBy)] else [])
        && (c.limit.Some? && c.balance + b.total > c.limit.value ==> Waived(db, call)))
  }

  /** Crashed after updating the balance and before writing the transaction. */
  predicate LostItsTransaction(db: Db, call: CompleteCall, lifetime: nat) {
    var p := Drive(db, Begin(db, call), lifetime).1;
    p.Process? && p.stage.WriteTxn?
  }

  predicate SameCredit(db: Db, d: Db) {
    d.customers == db.customers && d.creditTxns == db.creditTxns
  }

  lemma StockStepKeepsCredit(db: Db, p: Process)
    requires p.Process? && (p.stage.Gate? || p.stage.Deduct? || p.stage.RecordCommission?)
    ensures var (d, q) := Advance(db, p);
            && SameCredit(db, d) && q.Process? && q.bill == p.bill && q.call == p.call
            && (p.stage.Gate? ==> q.stage == Deduct || q.stage.Failed?)
            && (p.stage.Deduct? ==> q.stage == RecordCommission || q.stage.Failed?)
            && (p.stage.RecordCommission? ==> q.stage == if p.bill.saleType.Credit? then ReadCustomer else Close)
  {
  }

  /** The bill write at the end, alone. */
  lemma CloseKeepsCredit(db: Db, p: Process, k: nat)
    requires p.Process? && p.stage.Close?
    ensures SameCredit(db, Drive(db, p, k).0)
    ensures Drive(db, p, k).1.Process? && !Drive(db, p, k).1.stage.WriteTxn?
  {
    if k > 0 {
      var (d, q) := Advance(db, p);
      DriveEnded(d, q, k - 1);
    }
  }

  /** From `ReadCustomer` on: nothing yet, the balance alone, or balance and transaction. */
  lemma CreditEffect(db: Db, p: Process, k: nat)
    requires p.Process? && p.stage.ReadCustomer?
    ensures var (d, q) := Drive(db, p, k);
            if p.bill.customer.None? || p.bill.customer.value !in db.customers || k < 2
            then SameCredit(db, d) && !(q.Process? && q.stage.WriteTxn?)
            else var c := db.customers[p.bill.customer.value];
              && d.customers == db.customers[p.bill.customer.value := c.(balance := c.balance + p.bill.total)]
              && (q.Process? && q.stage.WriteTxn? <==> k == 2)
              && d.creditTxns == db.creditTxns
                   + (if k > 2 then [CreditTxn(p.bill.customer.value, p.bill.id, p.bill.total, c.balance,
                                               c.balance + p.bill.total, p.call.performedBy)] else [])
  {
    if k > 0 {
      var (db1, p1) := Advance(db, p);
      if p1.stage.Failed? {
        DriveEnded(db1, p1, k - 1);
      } else if k > 1 {
        var (db2, p2) := Advance(db1, p1);
        if k > 2 {
          var (db3, p3) := Advance(db2, p2);
          CloseKeepsCredit(db3, p3, k - 3);
          assert Drive(db, p, k) == Drive(db1, p1, k - 1) == Drive(db2, p2, k - 2) == Drive(db3, p3, k - 3);
        } else {
          assert Drive(db, p, k) == Drive(db1, p1, 1) == Drive(db2, p2, 0);
        }
      } else {
        assert Drive(db, p, k) == (db1, p1);
      }
    }
  }

  lemma GateMeaning(db: Db, p: Process)
    requires p.Process? && p.stage.Gate? && p.bill.saleType.Credit? && Advance(db, p).1.stage.Deduct?
    requires p.call.bill in db.bills && p.bill == db.bills[p.call.bill]
    requires p.bill.customer.Some? && p.bill.customer.value in db.customers
    ensures var c := db.customers[p.bill.customer.value];
            c.limit.Some? && c.balance + p.bill.total > c.limit.value ==> Waived(db, p.call)
    ensures Advance(db, p).0 == db
  {
  }

  /** A completion either leaves customers and transactions alone, or charges its bill to the
      balance the gate checked; the transaction is missing only after a crash in between. */
  lemma CompletionCharges(db: Db, call: CompleteCall, k: nat)
    ensures var d := Drive(db, Begin(db, call), k).0;
            || (SameCredit(db, d) && !LostItsTransaction(db, call, k))
            || (call.bill in db.bills && Charges(db, call, d, db.bills[call.bill], !LostItsTransaction(db, call, k)))
  {
    var p := Begin(db, call);
    if p.Missing? {
      DriveEnded(db, p, k);
    } else if k >= 3 {
      var (db1, p1) := Advance(db, p);
      StockStepKeepsCredit(db, p);
      if p1.stage.Failed? {
        DriveEnded(db1, p1, k - 1);
      } else {
        var (db2, p2) := Advance(db1, p1);
        StockStepKeepsCredit(db1, p1);
        if p2.stage.Failed? {
          DriveEnded(db2, p2, k - 2);
        } else {
          var (db3, p3) := Advance(db2, p2);
          StockStepKeepsCredit(db2, p2);
          assert Drive(db, p, k) == Drive(db1, p1, k - 1) == Drive(db2, p2, k - 2) == Drive(db3, p3, k - 3);
          if p3.stage.Close? {
            CloseKeepsCredit(db3, p3, k - 3);
          } else {
            CreditEffect(db3, p3, k - 3);
            if p.bill.customer.Some? && p.bill.customer.value in db.customers {
              GateMeaning(db, p);
            }
          }
        }
      }
    } else {
      EarlyCrash(db, p, k);
    }
  }

  lemma EarlyCrash(db: Db, p: Process, k: nat)
    requires p.Process? && p.stage.Gate? && k < 3
    ensures SameCredit(db, Drive(db, p, k).0)
    ensures Drive(db, p, k).1.Process? && !Drive(db, p, k).1.stage.WriteTxn?
  {
    if k > 0 {
      var (db1, p1) := Advance(db, p);
      StockStepKeepsCredit(db, p);
      if p1.stage.Failed? {
        DriveEnded(db1, p1, k - 1);
      } else if k > 1 {
        var (db2, p2) := Advance(db1, p1);
        StockStepKeepsCredit(db1, p1);
        assert Drive(db, p, k) == Drive(db1, p1, 1) == Drive(db2, p2, 0);
      }
    }
  }

  lemma OtherRequestsKeepCredit(db: Db, r: Request)
    requires !r.CompleteRequest?
    ensures SameCredit(db, Serve(db, r))
  {
    if r.StockRequest? {
      ExecFrame(db, r.stock);
    }
  }

  // ---- the credit limit ----

  predicate WithinLimit(db: Db, customer: Id) {
    customer in db.customers && db.customers[customer].limit.Some? ==>
      db.customers[customer].balance <= db.customers[customer].limit.value
  }

  predicate WaivesFor(db: Db, r: Request, customer: Id) {
    r.CompleteRequest? && r.call.bill in db.bills && db.bills[r.call.bill].saleType.Credit?
    && db.bills[r.call.bill].customer == Some(customer) && Waived(db, r.call)
  }

  /** A completion that charges a customer and leaves the balance above the limit was waived: by
      an override, an approved request for the bill, or a skip rule. */
  lemma OverLimitWasWaived(db: Db, r: Request, customer: Id)
    requires r.CompleteRequest? && customer in db.customers
    requires customer in Serve(db, r).customers && Serve(db, r).customers[customer] != db.customers[customer]
    requires !WithinLimit(Serve(db, r), customer)
    ensures WaivesFor(db, r, customer)
  {
    CompletionCharges(db, r.call, r.lifetime);
  }

  predicate NeverWaived(db: Db, rs: seq<Request>, customer: Id)
    decreases |rs|
  {
    rs == [] || (!WaivesFor(db, rs[0], customer) && NeverWaived(Serve(db, rs[0]), rs[1..], customer))
  }

  /** Over every serial run without a waiver, crashes included, a balance within the limit stays there. */
  lemma {:induction false} LimitIsInvariant(db: Db, rs: seq<Request>, customer: Id)
    requires WithinLimit(db, customer) && NeverWaived(db, rs, customer)
    ensures WithinLimit(ServeAll(db, rs), customer)
    decreases |rs|
  {
    if rs != [] {
      var r := rs[0];
      if r.CompleteRequest? {
        CompletionCharges(db, r.call, r.lifetime);
      } else {
        OtherRequestsKeepCredit(db, r);
      }
      LimitIsInvariant(Serve(db, r), rs[1..], customer);
    }
  }

  // ---- the credit ledger ----

  function Balance(db: Db, customer: Id): int {
    if customer in db.customers then db.customers[customer].balance else 0
  }

  function TxnSum(ts: seq<CreditTxn>, customer: Id): int
    decreases |ts|
  {
    if ts == [] then 0 else (if ts[0].customer == customer then ts[0].amount else 0) + TxnSum(ts[1..], customer)
  }

  /** Each of the customer's transactions starts at the balance where the previous one ended. */
  predicate TxnChain(balance: int, ts: seq<CreditTxn>, customer: Id)
    decreases |ts|
  {
    ts == [] ||
    (if ts[0].customer == customer
     then ts[0].before == balance && ts[0].after == balance + ts[0].amount && TxnChain(ts[0].after, ts[1..], customer)
     else TxnChain(balance, ts[1..], customer))
  }

  /** What a request charged to the customer without logging it. */
  function Unlogged(db: Db, r: Request, customer: Id): int {
    if r.CompleteRequest? && LostItsTransaction(db, r.call, r.lifetime)
       && r.call.bill in db.bills && db.bills[r.call.bill].customer == Some(customer)
    then db.bills[r.call.bill].total else 0
  }

  function UnloggedSum(db: Db, rs: seq<Request>, customer: Id): int
    decreases |rs|
  {
    if rs == [] then 0 else Unlogged(db, rs[0], customer) + UnloggedSum(Serve(db, rs[0]), rs[1..], customer)
  }

  predicate NoLostTransaction(db: Db, rs: seq<Request>)
    decreases |rs|
  {
    rs == [] ||
    ((rs[0].CompleteRequest? ==> !LostItsTransaction(db, rs[0].call, rs[0].lifetime))
     && NoLostTransaction(Serve(db, rs[0]), rs[1..]))
  }

  lemma {:induction false} TxnConcat(balance: int, a: seq<CreditTxn>, b: seq<CreditTxn>, customer: Id)
    ensures TxnSum(a + b, customer) == TxnSum(a, customer) + TxnSum(b, customer)
    ensures TxnChain(balance, a, customer) ==>
              (TxnChain(balance, a + b, customer) <==> TxnChain(balance + TxnSum(a, customer), b, customer))
    decreases |a|
  {
    if a == [] {
      assert a + b == b;
    } else {
      assert (a + b)[1..] == a[1..] + b;
      TxnConcat(if a[0].customer == customer then a[0].after else balance, a[1..], b, customer);
    }
  }

  /** The transactions a request appends, and the balance change they leave unexplained. */
  lemma ServeCredit(db: Db, r: Request, customer: Id)
    ensures db.creditTxns <= Serve(db, r).creditTxns
    ensures var ts := Serve(db, r).creditTxns[|db.creditTxns|..];
            && Balance(Serve(db, r), customer) - Balance(db, customer) == TxnSum(ts, customer) + Unlogged(db, r, customer)
            && TxnChain(Balance(db, customer), ts, customer)
  {
    var d := Serve(db, r);
    if r.CompleteRequest? {
      CompletionCharges(db, r.call, r.lifetime);
    } else {
      OtherRequestsKeepCredit(db, r);
    }
    var ts := d.creditTxns[|db.creditTxns|..];
    if |ts| > 0 {
      assert ts == [ts[0]] && ts[1..] == [];
    }
  }

  lemma TailSplit<T>(a: seq<T>, b: seq<T>, c: seq<T>)
    requires a <= b <= c
    ensures a <= c && c[|a|..] == b[|a|..] + c[|b|..]
  {
  }

  /** Balances against the ledger, over every serial run: growth is the logged amounts plus exactly
      what crashes between the two writes left unlogged. */
  lemma {:induction false} BalanceIsLoggedPlusUnlogged(db: Db, rs: seq<Request>, customer: Id)
    ensures db.creditTxns <= ServeAll(db, rs).creditTxns
    ensures Balance(ServeAll(db, rs), customer) - Balance(db, customer)
         == TxnSum(ServeAll(db, rs).creditTxns[|db.creditTxns|..], customer) + UnloggedSum(db, rs, customer)
    decreases |rs|
  {
    var d := ServeAll(db, rs);
    if rs == [] {
      assert d.creditTxns[|db.creditTxns|..] == [];
    } else {
      var d1 := Serve(db, rs[0]);
      ServeCredit(db, rs[0], customer);
      BalanceIsLoggedPlusUnlogged(d1, rs[1..], customer);
      TailSplit(db.creditTxns, d1.creditTxns, d.creditTxns);
      TxnConcat(Balance(db, customer), d1.creditTxns[|db.creditTxns|..], d.creditTxns[|d1.creditTxns|..], customer);
    }
  }

  /** The transactions from `a` to `b` chain and account for the balance. */
  ghost predicate ChainsTo(a: Db, b: Db, customer: Id) {
    && a.creditTxns <= b.creditTxns
    && TxnChain(Balance(a, customer), b.creditTxns[|a.creditTxns|..], customer)
    && Balance(b, customer) == Balance(a, customer) + TxnSum(b.creditTxns[|a.creditTxns|..], customer)
  }

  lemma ChainJoins(a: Db, b: Db, c: Db, customer: Id)
    requires ChainsTo(a, b, customer) && ChainsTo(b, c, customer)
    ensures ChainsTo(a, c, customer)
  {
    TailSplit(a.creditTxns, b.creditTxns, c.creditTxns);
    TxnConcat(Balance(a, customer), b.creditTxns[|a.creditTxns|..], c.creditTxns[|b.creditTxns|..], customer);
  }

  /** Without such a crash the transactions chain from the first balance to the last. */
  lemma {:induction false} CreditChainUnbroken(db: Db, rs: seq<Request>, customer: Id)
    requires NoLostTransaction(db, rs)
    ensures db.creditTxns <= ServeAll(db, rs).creditTxns
    ensures var ts := ServeAll(db, rs).creditTxns[|db.creditTxns|..];
            && TxnChain(Balance(db, customer), ts, customer)
            && Balance(ServeAll(db, rs), customer) == Balance(db, customer) + TxnSum(ts, customer)
    decreases |rs|
  {
    var d := ServeAll(db, rs);
    if rs == [] {
      assert d.creditTxns[|db.creditTxns|..] == [];
    } else {
      var d1 := Serve(db, rs[0]);
      ServeCredit(db, rs[0], customer);
      CreditChainUnbroken(d1, rs[1..], customer);
      ChainJoins(db, d1, d, customer);
    }
  }

  predicate TotalsRegistered(r: Request) {
    (r.RegisterBill? ==> 0 <= r.newBill.total) && (r.EditBill? ==> 0 <= r.edited.total)
  }

  predicate TotalsNonNegative(db: Db) {
    forall id <- db.bills :: 0 <= db.bills[id].total
  }

  lemma {:induction false} DriveKeepsTotals(db: Db, p: Process, k: nat)
    requires TotalsNonNegative(db) && (p.Process? ==> 0 <= p.bill.total)
    ensures TotalsNonNegative(Drive(db, p, k).0)
    decreases k
  {
    if k > 0 {
      var (d, q) := Advance(db, p);
      AdvanceKeepsTotals(db, p);
      DriveKeepsTotals(d, q, k - 1);
    }
  }

  lemma AdvanceKeepsTotals(db: Db, p: Process)
    requires TotalsNonNegative(db) && (p.Process? ==> 0 <= p.bill.total)
    ensures TotalsNonNegative(Advance(db, p).0)
    ensures Advance(db, p).1.Process? ==> 0 <= Advance(db, p).1.bill.total
  {
    AdvanceKeepsProcess(db, p);
    AdvanceFrame(db, p);
  }

  lemma ServeKeepsTotals(db: Db, r: Request)
    requires TotalsNonNegative(db) && TotalsRegistered(r)
    ensures TotalsNonNegative(Serve(db, r))
  {
    match r
    case CompleteRequest(call, k) => DriveKeepsTotals(db, Begin(db, call), k);
    case StockRequest(call) => ExecFrame(db, call);
    case _ =>
  }

  /** With non-negative totals the ledger never runs ahead of the balance, wherever a crash hits. */
  lemma {:induction false} LedgerNeverAhead(db: Db, rs: seq<Request>, customer: Id)
    requires TotalsNonNegative(db) && forall r <- rs :: TotalsRegistered(r)
    ensures 0 <= UnloggedSum(db, rs, customer)
    ensures db.creditTxns <= ServeAll(db, rs).creditTxns
    ensures TxnSum(ServeAll(db, rs).creditTxns[|db.creditTxns|..], customer)
         <= Balance(ServeAll(db, rs), customer) - Balance(db, customer)
    decreases |rs|
  {
    if rs != [] {
      ServeKeepsTotals(db, rs[0]);
      assert forall q <- rs[1..] :: q in rs;
      LedgerNeverAhead(Serve(db, rs[0]), rs[1..], customer);
    }
    BalanceIsLoggedPlusUnlogged(db, rs, customer);
  }
}
