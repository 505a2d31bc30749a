/** A customer's balance over every interleaving. A completion reads the customer, writes the whole
    record back with the new balance, and logs a transaction, in three steps and without a lock. */
module CreditRuns {
  import opened Wrappers
  import opened StockPool
  import opened Tables
  import opened StockOrchestration
  import opened StockProofs
  import opened BillCompletion
  import opened Runs
  import opened Isolation
  import opened Interleaving

  // ---- the charges and the logs of a run ----

  /** A balance written, or a transaction logged. */
  datatype Entry = Charge(txn: CreditTxn) | Log(txn: CreditTxn)

  function TxnOf(p: Process, customer: Id, before: int): CreditTxn
    requires p.Process?
  {
    CreditTxn(customer, p.bill.id, p.bill.total, before, before + p.bill.total, p.call.performedBy)
  }

  function StepEntries(p: Process, customer: Id): seq<Entry> {
    if !(p.Process? && p.bill.customer == Some(customer)) then []
    else if p.stage.WriteBalance? then [Charge(TxnOf(p, customer, p.stage.customer.balance))]
    else if p.stage.WriteTxn? then [Log(TxnOf(p, customer, p.stage.before))]
    else []
  }

  function DriveEntries(db: Db, p: Process, k: nat, customer: Id): seq<Entry>
    decreases k
  {
    if k == 0 then [] else
    StepEntries(p, customer) + DriveEntries(Advance(db, p).0, Advance(db, p).1, k - 1, customer)
  }

  /** The call that an event steps, if it steps one. */
  function Stepped(w: World, e: Event): Process {
    match e
    case Steps(pid) => if pid in w.processes then w.processes[pid] else Missing
    case StepsOn(pid, _) => if pid in w.processes then w.processes[pid] else Missing
    case _ => Missing
  }

  function EventEntries(w: World, e: Event, customer: Id): seq<Entry> {
    if e.Serving? && e.request.CompleteRequest?
    then DriveEntries(w.db, Begin(w.db, e.request.call), e.request.lifetime, customer)
    else StepEntries(Stepped(w, e), customer)
  }

  function Entries(w: World, es: seq<Event>, customer: Id): seq<Entry>
    decreases |es|
  {
    if es == [] then [] else EventEntries(w, es[0], customer) + Entries(Step(w, es[0]), es[1..], customer)
  }

  function ChargesOf(entries: seq<Entry>): seq<CreditTxn>
    decreases |entries|
  {
    if entries == [] then [] else
    (if entries[0].Charge? then [entries[0].txn] else []) + ChargesOf(entries[1..])
  }

  function LogsOf(entries: seq<Entry>): seq<CreditTxn>
    decreases |entries|
  {
    if entries == [] then [] else
    (if entries[0].Log? then [entries[0].txn] else []) + LogsOf(entries[1..])
  }

  lemma Associates(a: seq<CreditTxn>, b: seq<CreditTxn>, c: seq<CreditTxn>)
    ensures a + (b + c) == (a + b) + c
  {
  }

  lemma {:induction false} ChargesConcat(a: seq<Entry>, b: seq<Entry>)
    ensures ChargesOf(a + b) == ChargesOf(a) + ChargesOf(b)
    decreases |a|
  {
    if a == [] {
      assert a + b == b;
    } else {
      assert (a + b)[1..] == a[1..] + b;
      ChargesConcat(a[1..], b);
      Associates(if a[0].Charge? then [a[0].txn] else [], ChargesOf(a[1..]), ChargesOf(b));
    }
  }

  lemma {:induction false} LogsConcat(a: seq<Entry>, b: seq<Entry>)
    ensures LogsOf(a + b) == LogsOf(a) + LogsOf(b)
    decreases |a|
  {
    if a == [] {
      assert a + b == b;
    } else {
      assert (a + b)[1..] == a[1..] + b;
      LogsConcat(a[1..], b);
      Associates(if a[0].Log? then [a[0].txn] else [], LogsOf(a[1..]), LogsOf(b));
    }
  }

  /** Entries of this customer, with consistent amounts. */
  predicate Proper(entries: seq<Entry>, customer: Id) {
    forall i :: 0 <= i < |entries| ==>
      entries[i].txn.customer == customer && entries[i].txn.after == entries[i].txn.before + entries[i].txn.amount
  }

  lemma {:induction false} DriveEntriesProper(db: Db, p: Process, k: nat, customer: Id)
    ensures Proper(DriveEntries(db, p, k, customer), customer)
    decreases k
  {
    if k > 0 {
      DriveEntriesProper(Advance(db, p).0, Advance(db, p).1, k - 1, customer);
    }
  }

  lemma {:induction false} EntriesProper(w: World, es: seq<Event>, customer: Id)
    ensures Proper(Entries(w, es, customer), customer)
    decreases |es|
  {
    if es != [] {
      if es[0].Serving? && es[0].request.CompleteRequest? {
        DriveEntriesProper(w.db, Begin(w.db, es[0].request.call), es[0].request.lifetime, customer);
      }
      EntriesProper(Step(w, es[0]), es[1..], customer);
    }
  }

  predicate AllProper(ts: seq<CreditTxn>, customer: Id) {
    forall i :: 0 <= i < |ts| ==> ts[i].customer == customer && ts[i].after == ts[i].before + ts[i].amount
  }

  lemma {:induction false} ChargesProper(entries: seq<Entry>, customer: Id)
    requires Proper(entries, customer)
    ensures AllProper(ChargesOf(entries), customer) && AllProper(LogsOf(entries), customer)
    decreases |entries|
  {
    if entries != [] {
      assert forall i :: 0 <= i < |entries| - 1 ==> entries[1..][i] == entries[i + 1];
      ChargesProper(entries[1..], customer);
    }
  }

  // ---- the balance is where the last charge left it ----

  function LastAfter(balance: int, ts: seq<CreditTxn>): int {
    if ts == [] then balance else ts[|ts| - 1].after
  }

  lemma LastAfterConcat(balance: int, a: seq<CreditTxn>, b: seq<CreditTxn>)
    ensures LastAfter(balance, a + b) == LastAfter(LastAfter(balance, a), b)
  {
  }

  lemma AdvanceBalance(db: Db, p: Process, customer: Id)
    ensures Balance(Advance(db, p).0, customer)
         == LastAfter(Balance(db, customer), ChargesOf(StepEntries(p, customer)))
  {
    if p.Process? && !p.stage.WriteBalance? {
      AdvanceCustomers(db, p);
    }
  }

  lemma AdvanceCustomers(db: Db, p: Process)
    requires p.Process? && !p.stage.WriteBalance?
    ensures Advance(db, p).0.customers == db.customers
  {
    if p.stage.Gate? || p.stage.Deduct? || p.stage.RecordCommission? {
      StockStepKeepsCredit(db, p);
    } else {
      LateCustomers(db, p);
    }
  }

  lemma LateCustomers(db: Db, p: Process)
    requires p.Process? && (p.stage.ReadCustomer? || p.stage.WriteTxn? || p.stage.Close? || Ended(p))
    ensures Advance(db, p).0.customers == db.customers
  {
  }

  lemma {:induction false} DriveBalance(db: Db, p: Process, k: nat, customer: Id) returns (end: Db, entries: seq<Entry>)
    ensures end == Drive(db, p, k).0 && entries == DriveEntries(db, p, k, customer)
    ensures Balance(end, customer) == LastAfter(Balance(db, customer), ChargesOf(entries))
    decreases k
  {
    if k == 0 {
      end, entries := db, [];
    } else {
      var (d, q) := Advance(db, p);
      AdvanceBalance(db, p, customer);
      var rest;
      end, rest := DriveBalance(d, q, k - 1, customer);
      entries := StepEntries(p, customer) + rest;
      ChargesConcat(StepEntries(p, customer), rest);
      LastAfterConcat(Balance(db, customer), ChargesOf(StepEntries(p, customer)), ChargesOf(rest));
    }
  }

  lemma StockEventsKeepCredit(w: World, e: Event)
    requires e.CommitsAdjustment? || e.CommitsStock?
    ensures SameCredit(w.db, Step(w, e).db)
  {
    if e.CommitsStock? {
      ExecOnFrame(w.db, e.stock, CopiesOf(w, e.tx));
    } else if e.snapshot in w.snapshots {
      ExecFrame(w.db, CommitAdjust(e.op, w.snapshots[e.snapshot]));
    }
  }

  lemma QuietEventsKeepCredit(w: World, e: Event)
    requires !TouchesStock(e)
    ensures SameCredit(w.db, Step(w, e).db)
  {
  }

  lemma OtherEventsKeepCredit(w: World, e: Event)
    requires !(e.Serving? && e.request.CompleteRequest?) && !e.Steps? && !e.StepsOn?
    ensures SameCredit(w.db, Step(w, e).db)
  {
    if e.Serving? {
      OtherRequestsKeepCredit(w.db, e.request);
    } else if TouchesStock(e) {
      StockEventsKeepCredit(w, e);
    } else {
      QuietEventsKeepCredit(w, e);
    }
  }

  /** What a step does to credit does not depend on the rows a sale has read. */
  lemma SteppedCredit(w: World, e: Event)
    requires e.Steps? || e.StepsOn?
    ensures SameCredit(Advance(w.db, Stepped(w, e)).0, Step(w, e).db)
  {
    if e.StepsOn? && e.pid in w.processes {
      var p := w.processes[e.pid];
      AdvanceOnFrame(w.db, p, CopiesOf(w, e.tx));
      if p.Process? && p.stage.Deduct? {
        StockStepKeepsCredit(w.db, p);
      }
    }
  }

  lemma StepBalance(w: World, e: Event, customer: Id)
    ensures Balance(Step(w, e).db, customer)
         == LastAfter(Balance(w.db, customer), ChargesOf(EventEntries(w, e, customer)))
  {
    if e.Serving? && e.request.CompleteRequest? {
      var end, entries := DriveBalance(w.db, Begin(w.db, e.request.call), e.request.lifetime, customer);
    } else if e.Steps? || e.StepsOn? {
      SteppedCredit(w, e);
      AdvanceBalance(w.db, Stepped(w, e), customer);
    } else {
      OtherEventsKeepCredit(w, e);
    }
  }

  /** Over every interleaving the balance is exactly what the last charge wrote. */
  lemma {:induction false} BalanceIsLastCharge(w: World, es: seq<Event>, customer: Id)
    ensures Balance(StepAll(w, es).db, customer)
         == LastAfter(Balance(w.db, customer), ChargesOf(Entries(w, es, customer)))
    decreases |es|
  {
    if es != [] {
      var first, rest := EventEntries(w, es[0], customer), Entries(Step(w, es[0]), es[1..], customer);
      StepBalance(w, es[0], customer);
      BalanceIsLastCharge(Step(w, es[0]), es[1..], customer);
      ChargesConcat(first, rest);
      LastAfterConcat(Balance(w.db, customer), ChargesOf(first), ChargesOf(rest));
    }
  }

  // ---- current writes ----

  /** A balance is written from a copy whose balance is still the stored one. */
  predicate StepCurrent(db: Db, p: Process, customer: Id) {
    p.Process? && p.stage.WriteBalance? && p.bill.customer == Some(customer) ==>
      p.stage.customer.balance == Balance(db, customer)
  }

  predicate DriveCurrent(db: Db, p: Process, k: nat, customer: Id)
    decreases k
  {
    k == 0 || (StepCurrent(db, p, customer) && DriveCurrent(Advance(db, p).0, Advance(db, p).1, k - 1, customer))
  }

  predicate EventCurrent(w: World, e: Event, customer: Id) {
    if e.Serving? && e.request.CompleteRequest?
    then DriveCurrent(w.db, Begin(w.db, e.request.call), e.request.lifetime, customer)
    else StepCurrent(w.db, Stepped(w, e), customer)
  }

  predicate WritesCurrent(w: World, es: seq<Event>, customer: Id)
    decreases |es|
  {
    es == [] || (EventCurrent(w, es[0], customer) && WritesCurrent(Step(w, es[0]), es[1..], customer))
  }

  /** A completion that runs undisturbed always writes from a current copy. */
  lemma {:induction false} DriveIsCurrent(db: Db, p: Process, k: nat, customer: Id)
    requires StepCurrent(db, p, customer)
    ensures DriveCurrent(db, p, k, customer)
    decreases k
  {
    if k > 0 {
      NextCurrent(db, p, customer);
      DriveIsCurrent(Advance(db, p).0, Advance(db, p).1, k - 1, customer);
    }
  }

  lemma NextCurrent(db: Db, p: Process, customer: Id)
    ensures StepCurrent(Advance(db, p).0, Advance(db, p).1, customer)
  {
  }

  /** So serial runs, crashes included, have only current writes. */
  lemma {:induction false} SerialRunsAreCurrent(w: World, es: seq<Event>, customer: Id)
    requires forall e <- es :: e.Serving?
    ensures WritesCurrent(w, es, customer)
    decreases |es|
  {
    if es != [] {
      if es[0].request.CompleteRequest? {
        DriveIsCurrent(w.db, Begin(w.db, es[0].request.call), es[0].request.lifetime, customer);
      }
      assert forall e <- es[1..] :: e in es;
      SerialRunsAreCurrent(Step(w, es[0]), es[1..], customer);
    }
  }

  lemma {:induction false} ChainConcat(balance: int, a: seq<CreditTxn>, b: seq<CreditTxn>, customer: Id)
    requires AllProper(a, customer)
    ensures TxnChain(balance, a + b, customer) <==>
            TxnChain(balance, a, customer) && TxnChain(LastAfter(balance, a), b, customer)
    decreases |a|
  {
    if a == [] {
      assert a + b == b;
    } else {
      assert (a + b)[1..] == a[1..] + b;
      ChainConcat(a[0].after, a[1..], b, customer);
    }
  }

  lemma EntriesChainIff(balance: int, first: seq<Entry>, rest: seq<Entry>, customer: Id)
    requires AllProper(ChargesOf(first), customer)
    ensures TxnChain(balance, ChargesOf(first + rest), customer) <==>
            TxnChain(balance, ChargesOf(first), customer) && TxnChain(LastAfter(balance, ChargesOf(first)), ChargesOf(rest), customer)
  {
    ChargesConcat(first, rest);
    ChainConcat(balance, ChargesOf(first), ChargesOf(rest), customer);
  }

  lemma StepChainIff(db: Db, p: Process, customer: Id)
    ensures TxnChain(Balance(db, customer), ChargesOf(StepEntries(p, customer)), customer) <==> StepCurrent(db, p, customer)
  {
    var ts := ChargesOf(StepEntries(p, customer));
    if ts != [] {
      assert ts == [ts[0]] && ts[1..] == [];
    }
  }

  lemma {:induction false} DriveChainIff(db: Db, p: Process, k: nat, customer: Id)
    ensures TxnChain(Balance(db, customer), ChargesOf(DriveEntries(db, p, k, customer)), customer) <==>
            DriveCurrent(db, p, k, customer)
    decreases k
  {
    if k > 0 {
      var (d, q) := Advance(db, p);
      var first, rest := StepEntries(p, customer), DriveEntries(d, q, k - 1, customer);
      StepChainIff(db, p, customer);
      AdvanceBalance(db, p, customer);
      DriveChainIff(d, q, k - 1, customer);
      ChargesProper(first, customer);
      EntriesChainIff(Balance(db, customer), first, rest, customer);
    }
  }

  lemma EventChainIff(w: World, e: Event, customer: Id)
    ensures TxnChain(Balance(w.db, customer), ChargesOf(EventEntries(w, e, customer)), customer) <==>
            EventCurrent(w, e, customer)
    ensures AllProper(ChargesOf(EventEntries(w, e, customer)), customer)
  {
    if e.Serving? && e.request.CompleteRequest? {
      DriveChainIff(w.db, Begin(w.db, e.request.call), e.request.lifetime, customer);
      DriveEntriesProper(w.db, Begin(w.db, e.request.call), e.request.lifetime, customer);
    } else {
      StepChainIff(w.db, Stepped(w, e), customer);
    }
    ChargesProper(EventEntries(w, e, customer), customer);
  }

  /** Over every interleaving, each charge starts at the balance the charge before it left exactly when
      every write is current. */
  lemma {:induction false} ChargesChainIffCurrent(w: World, es: seq<Event>, customer: Id)
    ensures TxnChain(Balance(w.db, customer), ChargesOf(Entries(w, es, customer)), customer) <==>
            WritesCurrent(w, es, customer)
    decreases |es|
  {
    if es != [] {
      var first, rest := EventEntries(w, es[0], customer), Entries(Step(w, es[0]), es[1..], customer);
      EventChainIff(w, es[0], customer);
      StepBalance(w, es[0], customer);
      ChargesChainIffCurrent(Step(w, es[0]), es[1..], customer);
      EntriesChainIff(Balance(w.db, customer), first, rest, customer);
    }
  }

  lemma {:induction false} ChainSum(balance: int, ts: seq<CreditTxn>, customer: Id)
    requires AllProper(ts, customer) && TxnChain(balance, ts, customer)
    ensures LastAfter(balance, ts) == balance + TxnSum(ts, customer)
    decreases |ts|
  {
    if ts != [] {
      ChainSum(ts[0].after, ts[1..], customer);
      assert ts[1..] != [] ==> ts[|ts| - 1] == ts[1..][|ts| - 2];
    }
  }

  /** With only current writes, whatever the interleaving, the balance grows by the charged totals. */
  lemma CurrentChargesAddUp(w: World, es: seq<Event>, customer: Id)
    requires WritesCurrent(w, es, customer)
    ensures Balance(StepAll(w, es).db, customer)
         == Balance(w.db, customer) + TxnSum(ChargesOf(Entries(w, es, customer)), customer)
  {
    ChargesChainIffCurrent(w, es, customer);
    BalanceIsLastCharge(w, es, customer);
    EntriesProper(w, es, customer);
    ChargesProper(Entries(w, es, customer), customer);
    ChainSum(Balance(w.db, customer), ChargesOf(Entries(w, es, customer)), customer);
  }
}
