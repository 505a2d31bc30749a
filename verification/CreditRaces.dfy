/** Overlapping completions for one customer: when both charges count, when the transactions chain,
    and when the credit limit holds. */
module CreditRaces {
  import opened Wrappers
  import opened StockPool
  import opened Tables
  import opened BillCompletion
  import opened Runs
  import opened Isolation
  import opened Interleaving
  import opened CreditRuns

  // ---- two charges ----

  lemma PairChain(balance: int, x: CreditTxn, y: CreditTxn, customer: Id)
    requires AllProper([x, y], customer)
    ensures TxnChain(balance, [x, y], customer) <==> x.before == balance && y.before == x.after
    ensures LastAfter(balance, [x, y]) == y.before + y.amount
  {
    var ts := [x, y];
    assert ts[0] == x && ts[1] == y;
    assert ts[1..] == [y] && [y][1..] == [];
    assert TxnChain(x.after, [y], customer) <==> y.before == x.after;
  }

  /** In any run that charges a customer twice, the first time from the balance it started with, both
      charges count exactly when both writes are current; otherwise the balance is what the later
      charge made of its own copy. */
  lemma TwoChargesIff(w: World, es: seq<Event>, customer: Id, x: CreditTxn, y: CreditTxn)
    requires ChargesOf(Entries(w, es, customer)) == [x, y] && x.before == Balance(w.db, customer)
    ensures Balance(StepAll(w, es).db, customer) == Balance(w.db, customer) + x.amount + y.amount <==>
            WritesCurrent(w, es, customer)
    ensures Balance(StepAll(w, es).db, customer) == y.before + y.amount
  {
    BalanceIsLastCharge(w, es, customer);
    ChargesChainIffCurrent(w, es, customer);
    EntriesProper(w, es, customer);
    ChargesProper(Entries(w, es, customer), customer);
    assert [x, y][0] == x && [x, y][1] == y;
    PairChain(Balance(w.db, customer), x, y, customer);
  }

  // ---- two completions, under any schedule ----

  predicate Unwritten(p: Process, customer: Id) {
    p.Process? && p.bill.customer == Some(customer) && (p.stage.ReadCustomer? || p.stage.WriteBalance?)
  }

  predicate Written(p: Process, customer: Id) {
    p.Process? && p.bill.customer == Some(customer) && (p.stage.WriteTxn? || p.stage.Close? || p.stage.Finished?)
  }

  /** The call has not read the balance yet, or its copy holds one of the two. */
  predicate Holds(p: Process, one: int, other: int) {
    p.Process? && p.stage.WriteBalance? ==> p.stage.customer.balance == one || p.stage.customer.balance == other
  }

  predicate TwoCalls(w: World, a: nat, b: nat, customer: Id) {
    a != b && a in w.processes && b in w.processes && customer in w.db.customers
  }

  predicate OnlySteps(es: seq<Event>, a: nat, b: nat) {
    forall e <- es :: e == Steps(a) || e == Steps(b)
  }

  /** What one step of a call in its credit part does. */
  lemma CreditStep(db: Db, p: Process, customer: Id)
    requires (Unwritten(p, customer) || Written(p, customer)) && customer in db.customers
    ensures var (d, q) := Advance(db, p);
            && customer in d.customers && q.Process? && q.bill == p.bill && q.call == p.call
            && (Written(p, customer) ==> Written(q, customer) && Balance(d, customer) == Balance(db, customer)
                                         && ChargesOf(StepEntries(p, customer)) == [])
            && (p.stage.ReadCustomer? ==> Unwritten(q, customer) && q.stage == WriteBalance(db.customers[customer])
                                          && d == db && ChargesOf(StepEntries(p, customer)) == [])
            && (p.stage.WriteBalance? ==>
                  && Written(q, customer)
                  && ChargesOf(StepEntries(p, customer)) == [TxnOf(p, customer, p.stage.customer.balance)]
                  && Balance(d, customer) == p.stage.customer.balance + p.bill.total)
  {
    var ts := StepEntries(p, customer);
    assert ts != [] ==> ts == [ts[0]] && ts[1..] == [];
    if Written(p, customer) {
      AdvanceCustomers(db, p);
    }
  }

  /** The same of an event of the run, and the charges it contributes. */
  lemma RunStep(w: World, es: seq<Event>, pid: nat, customer: Id) returns (d: Db, q: Process)
    requires es != [] && es[0] == Steps(pid) && pid in w.processes && customer in w.db.customers
    requires Unwritten(w.processes[pid], customer) || Written(w.processes[pid], customer)
    ensures Advance(w.db, w.processes[pid]) == (d, q)
    ensures Step(w, es[0]) == w.(db := d, processes := w.processes[pid := q])
    ensures ChargesOf(Entries(w, es, customer))
         == ChargesOf(StepEntries(w.processes[pid], customer)) + ChargesOf(Entries(Step(w, es[0]), es[1..], customer))
  {
    d, q := Advance(w.db, w.processes[pid]).0, Advance(w.db, w.processes[pid]).1;
    EntriesCons(w, es, customer);
  }

  lemma EntriesCons(w: World, es: seq<Event>, customer: Id)
    requires es != []
    ensures ChargesOf(Entries(w, es, customer))
         == ChargesOf(EventEntries(w, es[0], customer)) + ChargesOf(Entries(Step(w, es[0]), es[1..], customer))
  {
    ChargesConcat(EventEntries(w, es[0], customer), Entries(Step(w, es[0]), es[1..], customer));
  }

  /** Both have written: no more charges. */
  lemma {:induction false} NoneLeft(w: World, a: nat, b: nat, es: seq<Event>, customer: Id)
    requires TwoCalls(w, a, b, customer) && OnlySteps(es, a, b)
    requires Written(w.processes[a], customer) && Written(w.processes[b], customer)
    ensures ChargesOf(Entries(w, es, customer)) == []
    decreases |es|
  {
    if es != [] {
      assert es[0] in es && forall e <- es[1..] :: e in es;
      var pid := es[0].pid;
      var d, q := RunStep(w, es, pid, customer);
      CreditStep(w.db, w.processes[pid], customer);
      NoneLeft(Step(w, es[0]), a, b, es[1..], customer);
    }
  }

  /** `a` has written, `b` has not: one charge is left, from the old balance or from the present one. */
  lemma {:induction false} OneLeft(w: World, a: nat, b: nat, es: seq<Event>, customer: Id, before: int) returns (y: CreditTxn)
    requires TwoCalls(w, a, b, customer) && OnlySteps(es, a, b)
    requires Written(w.processes[a], customer) && Unwritten(w.processes[b], customer)
    requires Holds(w.processes[b], before, Balance(w.db, customer))
    requires b in StepAll(w, es).processes && Written(StepAll(w, es).processes[b], customer)
    ensures ChargesOf(Entries(w, es, customer)) == [y] && y.amount == w.processes[b].bill.total
    ensures y.before == before || y.before == Balance(w.db, customer)
    decreases |es|
  {
    if es == [] {
      assert false;
    } else {
      assert es[0] in es && forall e <- es[1..] :: e in es;
      var pid := es[0].pid;
      var p, w1 := w.processes[pid], Step(w, es[0]);
      var d, q := RunStep(w, es, pid, customer);
      CreditStep(w.db, p, customer);
      if pid == b && p.stage.WriteBalance? {
        NoneLeft(w1, a, b, es[1..], customer);
        y := TxnOf(p, customer, p.stage.customer.balance);
      } else {
        y := OneLeft(w1, a, b, es[1..], customer, before);
      }
    }
  }

  /** Of two calls that have not written, the first writes now. */
  lemma FirstWrites(w: World, a: nat, b: nat, es: seq<Event>, customer: Id) returns (x: CreditTxn, y: CreditTxn)
    requires TwoCalls(w, a, b, customer) && OnlySteps(es, a, b) && es != [] && es[0] == Steps(a)
    requires Unwritten(w.processes[a], customer) && Holds(w.processes[a], Balance(w.db, customer), Balance(w.db, customer))
    requires Unwritten(w.processes[b], customer) && Holds(w.processes[b], Balance(w.db, customer), Balance(w.db, customer))
    requires w.processes[a].stage.WriteBalance?
    requires b in StepAll(w, es).processes && Written(StepAll(w, es).processes[b], customer)
    ensures ChargesOf(Entries(w, es, customer)) == [x, y] && x.before == Balance(w.db, customer)
    ensures x.after == x.before + x.amount && x.amount == w.processes[a].bill.total
    ensures (y.before == Balance(w.db, customer) || y.before == x.after) && y.amount == w.processes[b].bill.total
  {
    var w1 := Step(w, es[0]);
    assert forall e <- es[1..] :: e in es;
    var d, q := RunStep(w, es, a, customer);
    CreditStep(w.db, w.processes[a], customer);
    x := TxnOf(w.processes[a], customer, w.processes[a].stage.customer.balance);
    y := OneLeft(w1, a, b, es[1..], customer, Balance(w.db, customer));
  }

  /** Neither has written: the first charge is from the balance at the start. */
  lemma {:induction false} TwoLeft(w: World, a: nat, b: nat, es: seq<Event>, customer: Id)
    returns (x: CreditTxn, y: CreditTxn)
    requires TwoCalls(w, a, b, customer) && OnlySteps(es, a, b)
    requires Unwritten(w.processes[a], customer) && Holds(w.processes[a], Balance(w.db, customer), Balance(w.db, customer))
    requires Unwritten(w.processes[b], customer) && Holds(w.processes[b], Balance(w.db, customer), Balance(w.db, customer))
    requires a in StepAll(w, es).processes && Written(StepAll(w, es).processes[a], customer)
    requires b in StepAll(w, es).processes && Written(StepAll(w, es).processes[b], customer)
    ensures ChargesOf(Entries(w, es, customer)) == [x, y] && x.before == Balance(w.db, customer)
    ensures x.after == x.before + x.amount
    ensures y.before == Balance(w.db, customer) || y.before == x.after
    ensures (x.amount == w.processes[a].bill.total && y.amount == w.processes[b].bill.total)
         || (x.amount == w.processes[b].bill.total && y.amount == w.processes[a].bill.total)
    decreases |es|
  {
    if es == [] {
      assert false;
    } else {
      assert es[0] in es && forall e <- es[1..] :: e in es;
      var pid := es[0].pid;
      if w.processes[pid].stage.WriteBalance? {
        x, y := FirstWrites(w, pid, if pid == a then b else a, es, customer);
      } else {
        var d, q := RunStep(w, es, pid, customer);
        CreditStep(w.db, w.processes[pid], customer);
        x, y := TwoLeft(Step(w, es[0]), a, b, es[1..], customer);
      }
    }
  }

  /** Two completions for one customer, from their reads on, under any schedule: both are charged
      exactly when both writes are current; otherwise the later one overwrites the earlier, and one
      of the two totals is lost. */
  lemma BothChargedIff(w: World, a: nat, b: nat, es: seq<Event>, customer: Id)
    requires TwoCalls(w, a, b, customer) && OnlySteps(es, a, b)
    requires Unwritten(w.processes[a], customer) && w.processes[a].stage.ReadCustomer?
    requires Unwritten(w.processes[b], customer) && w.processes[b].stage.ReadCustomer?
    requires a in StepAll(w, es).processes && Written(StepAll(w, es).processes[a], customer)
    requires b in StepAll(w, es).processes && Written(StepAll(w, es).processes[b], customer)
    ensures var start, end := Balance(w.db, customer), Balance(StepAll(w, es).db, customer);
            var ta, tb := w.processes[a].bill.total, w.processes[b].bill.total;
            && (end == start + ta + tb <==> WritesCurrent(w, es, customer))
            && (!WritesCurrent(w, es, customer) ==> end == start + ta || end == start + tb)
  {
    var x, y := TwoLeft(w, a, b, es, customer);
    TwoChargesIff(w, es, customer, x, y);
  }

  /** Both read, then both write: the earlier charge is lost. */
  lemma OverlappingChargesLoseOne(w: World, a: nat, b: nat, customer: Id)
    requires TwoCalls(w, a, b, customer)
    requires Unwritten(w.processes[a], customer) && w.processes[a].stage.ReadCustomer?
    requires Unwritten(w.processes[b], customer) && w.processes[b].stage.ReadCustomer?
    ensures var end := StepAll(w, [Steps(a), Steps(b), Steps(a), Steps(b)]);
            Balance(end.db, customer) == Balance(w.db, customer) + w.processes[b].bill.total
  {
    var w1 := Step(w, Steps(a));
    var w2 := Step(w1, Steps(b));
    var w3 := Step(w2, Steps(a));
    CreditStep(w.db, w.processes[a], customer);
    CreditStep(w1.db, w1.processes[b], customer);
    assert w2.processes[b].stage == WriteBalance(w.db.customers[customer]) && w3.processes[b] == w2.processes[b];
    FourSteps(w, Steps(a), Steps(b), Steps(a), Steps(b));
  }

  lemma FourSteps(w: World, e: Event, f: Event, g: Event, h: Event)
    ensures StepAll(w, [e, f, g, h]) == Step(Step(Step(Step(w, e), f), g), h)
  {
    assert [e, f, g, h][1..] == [f, g, h] && [f, g, h][1..] == [g, h] && [g, h][1..] == [h] && [h][1..] == [];
    var w1 := Step(w, e);
    assert StepAll(w1, [f, g, h]) == StepAll(Step(w1, f), [g, h]) == StepAll(Step(Step(w1, f), g), [h]);
    assert StepAll(Step(Step(w1, f), g), [h]) == StepAll(Step(Step(Step(w1, f), g), h), []);
  }

  // ---- the logged transactions ----

  /** Every transaction is logged for the oldest charge that has none yet. */
  predicate InOrder(open: seq<CreditTxn>, entries: seq<Entry>)
    decreases |entries|
  {
    entries == [] ||
    match entries[0]
    case Charge(t) => InOrder(open + [t], entries[1..])
    case Log(t) => open != [] && open[0] == t && InOrder(open[1..], entries[1..])
  }

  /** The charges still without a transaction at the end. */
  function OpenAfter(open: seq<CreditTxn>, entries: seq<Entry>): seq<CreditTxn>
    requires InOrder(open, entries)
    decreases |entries|
  {
    if entries == [] then open else
    match entries[0]
    case Charge(t) => OpenAfter(open + [t], entries[1..])
    case Log(_) => OpenAfter(open[1..], entries[1..])
  }

  lemma {:induction false} LoggedPlusOpen(open: seq<CreditTxn>, entries: seq<Entry>)
    requires InOrder(open, entries)
    ensures open + ChargesOf(entries) == LogsOf(entries) + OpenAfter(open, entries)
    decreases |entries|
  {
    if entries != [] {
      match entries[0]
      case Charge(t) =>
        LoggedPlusOpen(open + [t], entries[1..]);
        Associates(open, [t], ChargesOf(entries[1..]));
      case Log(t) =>
        LoggedPlusOpen(open[1..], entries[1..]);
        assert open == [t] + open[1..];
        Associates([t], open[1..], ChargesOf(entries[1..]));
        Associates([t], LogsOf(entries[1..]), OpenAfter(open[1..], entries[1..]));
    }
  }

  function OfCustomer(ts: seq<CreditTxn>, customer: Id): seq<CreditTxn>
    decreases |ts|
  {
    if ts == [] then [] else (if ts[0].customer == customer then [ts[0]] else []) + OfCustomer(ts[1..], customer)
  }

  lemma {:induction false} OfCustomerConcat(a: seq<CreditTxn>, b: seq<CreditTxn>, customer: Id)
    ensures OfCustomer(a + b, customer) == OfCustomer(a, customer) + OfCustomer(b, customer)
    decreases |a|
  {
    if a == [] {
      assert a + b == b;
    } else {
      assert (a + b)[1..] == a[1..] + b;
      OfCustomerConcat(a[1..], b, customer);
      Associates(if a[0].customer == customer then [a[0]] else [], OfCustomer(a[1..], customer), OfCustomer(b, customer));
    }
  }

  lemma {:induction false} ChainOfCustomer(balance: int, ts: seq<CreditTxn>, customer: Id)
    ensures TxnChain(balance, ts, customer) <==> TxnChain(balance, OfCustomer(ts, customer), customer)
    ensures TxnSum(ts, customer) == TxnSum(OfCustomer(ts, customer), customer)
    decreases |ts|
  {
    if ts != [] {
      var rest := OfCustomer(ts[1..], customer);
      if ts[0].customer == customer {
        assert OfCustomer(ts, customer)[0] == ts[0] && OfCustomer(ts, customer)[1..] == rest;
        ChainOfCustomer(ts[0].after, ts[1..], customer);
      } else {
        assert OfCustomer(ts, customer) == rest;
        ChainOfCustomer(balance, ts[1..], customer);
      }
    }
  }

  /** The new transactions of a customer are the logs of the run. */
  ghost predicate LogsAre(db: Db, d: Db, entries: seq<Entry>, customer: Id) {
    db.creditTxns <= d.creditTxns && OfCustomer(d.creditTxns[|db.creditTxns|..], customer) == LogsOf(entries)
  }

  lemma LogsTrans(a: Db, b: Db, c: Db, first: seq<Entry>, rest: seq<Entry>, customer: Id)
    requires LogsAre(a, b, first, customer) && LogsAre(b, c, rest, customer)
    ensures LogsAre(a, c, first + rest, customer)
  {
    TailSplit(a.creditTxns, b.creditTxns, c.creditTxns);
    OfCustomerConcat(b.creditTxns[|a.creditTxns|..], c.creditTxns[|b.creditTxns|..], customer);
    LogsConcat(first, rest);
  }

  lemma LogsNone(db: Db, d: Db, entries: seq<Entry>, customer: Id)
    requires d.creditTxns == db.creditTxns && LogsOf(entries) == []
    ensures LogsAre(db, d, entries, customer)
  {
    assert d.creditTxns[|db.creditTxns|..] == [];
  }

  lemma AdvanceTxns(db: Db, p: Process)
    requires p.Process? && !p.stage.WriteTxn?
    ensures Advance(db, p).0.creditTxns == db.creditTxns
  {
    if p.stage.Gate? || p.stage.Deduct? || p.stage.RecordCommission? {
      StockStepKeepsCredit(db, p);
    } else {
      LateTxns(db, p);
    }
  }

  lemma LateTxns(db: Db, p: Process)
    requires p.Process? && (p.stage.ReadCustomer? || p.stage.WriteBalance? || p.stage.Close? || Ended(p))
    ensures Advance(db, p).0.creditTxns == db.creditTxns
  {
  }

  lemma AdvanceLogs(db: Db, p: Process, customer: Id)
    ensures LogsAre(db, Advance(db, p).0, StepEntries(p, customer), customer)
  {
    var d, entries := Advance(db, p).0, StepEntries(p, customer);
    assert entries != [] ==> entries == [entries[0]] && entries[1..] == [];
    if p.Process? && p.stage.WriteTxn? && p.bill.customer.Some? {
      var t := TxnOf(p, p.bill.customer.value, p.stage.before);
      var added := d.creditTxns[|db.creditTxns|..];
      assert added == [t] && added[1..] == [];
    } else {
      if p.Process? && !p.stage.WriteTxn? {
        AdvanceTxns(db, p);
      }
      LogsNone(db, d, entries, customer);
    }
  }

  lemma {:induction false} DriveLogs(db: Db, p: Process, k: nat, customer: Id)
    ensures LogsAre(db, Drive(db, p, k).0, DriveEntries(db, p, k, customer), customer)
    decreases k
  {
    if k == 0 {
      LogsNone(db, db, [], customer);
    } else {
      var (d, q) := Advance(db, p);
      AdvanceLogs(db, p, customer);
      DriveLogs(d, q, k - 1, customer);
      LogsTrans(db, d, Drive(d, q, k - 1).0, StepEntries(p, customer), DriveEntries(d, q, k - 1, customer), customer);
    }
  }

  lemma StepLogs(w: World, e: Event, customer: Id)
    ensures LogsAre(w.db, Step(w, e).db, EventEntries(w, e, customer), customer)
  {
    if e.Serving? && e.request.CompleteRequest? {
      DriveLogs(w.db, Begin(w.db, e.request.call), e.request.lifetime, customer);
    } else if e.Steps? || e.StepsOn? {
      SteppedCredit(w, e);
      AdvanceLogs(w.db, Stepped(w, e), customer);
    } else {
      OtherEventsKeepCredit(w, e);
      assert EventEntries(w, e, customer) == [];
      LogsNone(w.db, Step(w, e).db, [], customer);
    }
  }

  lemma {:induction false} NewTxnsAreLogs(w: World, es: seq<Event>, customer: Id)
    ensures LogsAre(w.db, StepAll(w, es).db, Entries(w, es, customer), customer)
    decreases |es|
  {
    if es == [] {
      LogsNone(w.db, w.db, [], customer);
    } else {
      StepLogs(w, es[0], customer);
      NewTxnsAreLogs(Step(w, es[0]), es[1..], customer);
      LogsTrans(w.db, Step(w, es[0]).db, StepAll(w, es).db, EventEntries(w, es[0], customer),
                Entries(Step(w, es[0]), es[1..], customer), customer);
    }
  }

  /** Over every interleaving in which balances are written from current copies and charges are logged
      in their order, the transactions chain from the balance at the start, and the balance is what
      they sum to plus the charges still unlogged. */
  lemma TransactionsChain(w: World, es: seq<Event>, customer: Id)
    requires WritesCurrent(w, es, customer) && InOrder([], Entries(w, es, customer))
    ensures w.db.creditTxns <= StepAll(w, es).db.creditTxns
    ensures var ts := StepAll(w, es).db.creditTxns[|w.db.creditTxns|..];
            && TxnChain(Balance(w.db, customer), ts, customer)
            && Balance(StepAll(w, es).db, customer)
               == Balance(w.db, customer) + TxnSum(ts, customer)
                  + TxnSum(OpenAfter([], Entries(w, es, customer)), customer)
  {
    var entries := Entries(w, es, customer);
    var logs, open := LogsOf(entries), OpenAfter([], entries);
    NewTxnsAreLogs(w, es, customer);
    ChargesChainIffCurrent(w, es, customer);
    CurrentChargesAddUp(w, es, customer);
    EntriesProper(w, es, customer);
    ChargesProper(entries, customer);
    LoggedPlusOpen([], entries);
    assert ChargesOf(entries) == logs + open;
    ChainConcat(Balance(w.db, customer), logs, open, customer);
    TxnConcat(0, logs, open, customer);
    ChainOfCustomer(Balance(w.db, customer), StepAll(w, es).db.creditTxns[|w.db.creditTxns|..], customer);
  }

  // ---- when the transactions chain ----

  predicate Covered(logs: seq<CreditTxn>, charges: seq<CreditTxn>) {
    forall t <- logs :: t in charges
  }

  /** A call about to log has made the charge it logs. */
  predicate Owed(p: Process, customer: Id, charges: seq<CreditTxn>) {
    p.Process? && p.stage.WriteTxn? && p.bill.customer == Some(customer) ==> TxnOf(p, customer, p.stage.before) in charges
  }

  lemma CoveredConcat(logs: seq<CreditTxn>, more: seq<CreditTxn>, a: seq<CreditTxn>, b: seq<CreditTxn>, c: seq<CreditTxn>)
    requires Covered(logs, a) && Covered(more, (a + b) + c)
    ensures Covered(logs + more, a + (b + c))
  {
    Associates(a, b, c);
  }

  lemma StepOwes(db: Db, p: Process, customer: Id, charges: seq<CreditTxn>)
    requires Owed(p, customer, charges)
    ensures Covered(LogsOf(StepEntries(p, customer)), charges)
    ensures Owed(Advance(db, p).1, customer, charges + ChargesOf(StepEntries(p, customer)))
  {
    var entries := StepEntries(p, customer);
    assert entries != [] ==> entries == [entries[0]] && entries[1..] == [];
    AdvanceKeepsProcess(db, p);
  }

  lemma {:induction false} DriveLogsCovered(db: Db, p: Process, k: nat, customer: Id, charges: seq<CreditTxn>)
    returns (entries: seq<Entry>)
    requires Owed(p, customer, charges)
    ensures entries == DriveEntries(db, p, k, customer) && Covered(LogsOf(entries), charges + ChargesOf(entries))
    decreases k
  {
    if k == 0 {
      entries := [];
    } else {
      var first := StepEntries(p, customer);
      StepOwes(db, p, customer, charges);
      var rest := DriveLogsCovered(Advance(db, p).0, Advance(db, p).1, k - 1, customer, charges + ChargesOf(first));
      entries := first + rest;
      ChargesConcat(first, rest);
      LogsConcat(first, rest);
      CoveredConcat(LogsOf(first), LogsOf(rest), charges, ChargesOf(first), ChargesOf(rest));
    }
  }

  ghost predicate AllOwed(w: World, customer: Id, charges: seq<CreditTxn>) {
    forall pid <- w.processes :: Owed(w.processes[pid], customer, charges)
  }

  lemma CallOwes(w: World, e: Event, customer: Id, charges: seq<CreditTxn>, pid: nat)
    requires AllOwed(w, customer, charges) && pid in Step(w, e).processes
    ensures Owed(Step(w, e).processes[pid], customer, charges + ChargesOf(EventEntries(w, e, customer)))
  {
    if (e.Steps? && e.pid == pid) || (e.StepsOn? && e.pid == pid) {
      StepOwes(w.db, w.processes[pid], customer, charges);
      if e.StepsOn? {
        AdvanceOnFrame(w.db, w.processes[pid], CopiesOf(w, e.tx));
      }
    } else if pid in w.processes {
      OtherCall(w, e, pid);
    }
  }

  lemma EventCovered(w: World, e: Event, customer: Id, charges: seq<CreditTxn>)
    requires AllOwed(w, customer, charges)
    ensures Covered(LogsOf(EventEntries(w, e, customer)), charges + ChargesOf(EventEntries(w, e, customer)))
  {
    if e.Serving? && e.request.CompleteRequest? {
      var entries := DriveLogsCovered(w.db, Begin(w.db, e.request.call), e.request.lifetime, customer, charges);
    } else {
      StepOwes(w.db, Stepped(w, e), customer, charges);
    }
  }

  lemma {:induction false} LogsCovered(w: World, es: seq<Event>, customer: Id, charges: seq<CreditTxn>)
    requires AllOwed(w, customer, charges)
    ensures Covered(LogsOf(Entries(w, es, customer)), charges + ChargesOf(Entries(w, es, customer)))
    decreases |es|
  {
    if es != [] {
      var w1, first := Step(w, es[0]), EventEntries(w, es[0], customer);
      var rest := Entries(w1, es[1..], customer);
      EventCovered(w, es[0], customer, charges);
      forall pid <- w1.processes ensures Owed(w1.processes[pid], customer, charges + ChargesOf(first)) {
        CallOwes(w, es[0], customer, charges, pid);
      }
      LogsCovered(w1, es[1..], customer, charges + ChargesOf(first));
      ChargesConcat(first, rest);
      LogsConcat(first, rest);
      assert charges + ChargesOf(first + rest) == (charges + ChargesOf(first)) + ChargesOf(rest) by {
        Associates(charges, ChargesOf(first), ChargesOf(rest));
      }
    }
  }

  predicate Positive(ts: seq<CreditTxn>) {
    forall t <- ts :: t.amount > 0
  }

  /** Later members of a chain of positive amounts start higher. */
  lemma {:induction false} ChainRises(balance: int, ts: seq<CreditTxn>, customer: Id, t: CreditTxn)
    requires AllProper(ts, customer) && TxnChain(balance, ts, customer) && Positive(ts) && t in ts
    ensures t.before >= balance && (t.before == balance ==> t == ts[0])
    decreases |ts|
  {
    if t != ts[0] {
      assert ts[0] in ts;
      ChainRises(ts[0].after, ts[1..], customer, t);
    }
  }

  /** Logs drawn from a chain of positive charges chain only when they are its beginning. */
  lemma {:induction false} DrawnChain(balance: int, charges: seq<CreditTxn>, logs: seq<CreditTxn>, customer: Id)
    requires AllProper(charges, customer) && TxnChain(balance, charges, customer) && Positive(charges)
    requires AllProper(logs, customer) && forall i :: 0 <= i < |logs| ==> logs[i].before >= balance ==> logs[i] in charges
    ensures TxnChain(balance, logs, customer) ==> logs <= charges
    decreases |logs|
  {
    if logs != [] && TxnChain(balance, logs, customer) {
      assert logs[0] in charges;
      ChainRises(balance, charges, customer, logs[0]);
      assert charges[0] in charges && logs[0] == charges[0];
      forall i | 0 <= i < |logs| - 1 && logs[1..][i].before >= charges[0].after ensures logs[1..][i] in charges[1..] {
        assert logs[i + 1] in charges && logs[i + 1] != charges[0];
      }
      DrawnChain(charges[0].after, charges[1..], logs[1..], customer);
      assert logs == [logs[0]] + logs[1..] && charges == [charges[0]] + charges[1..];
    }
  }

  lemma BeginningChains(balance: int, charges: seq<CreditTxn>, logs: seq<CreditTxn>, customer: Id)
    requires AllProper(charges, customer) && TxnChain(balance, charges, customer) && Positive(charges)
    requires AllProper(logs, customer) && Covered(logs, charges)
    ensures TxnChain(balance, logs, customer) <==> logs <= charges
  {
    DrawnChain(balance, charges, logs, customer);
    if logs <= charges {
      assert charges == logs + charges[|logs|..];
      ChainConcat(balance, logs, charges[|logs|..], customer);
    }
  }

  lemma ProperlyCovered(w: World, es: seq<Event>, customer: Id)
    requires AllOwed(w, customer, [])
    ensures var entries := Entries(w, es, customer);
            && AllProper(ChargesOf(entries), customer) && AllProper(LogsOf(entries), customer)
            && Covered(LogsOf(entries), ChargesOf(entries))
  {
    EntriesProper(w, es, customer);
    ChargesProper(Entries(w, es, customer), customer);
    LogsCovered(w, es, customer, []);
    assert [] + ChargesOf(Entries(w, es, customer)) == ChargesOf(Entries(w, es, customer));
  }

  /** With current writes and positive totals, the transactions logged in a run chain from the balance
      at the start exactly when they are, in order, the oldest charges of the run. */
  lemma TransactionsChainIff(w: World, es: seq<Event>, customer: Id)
    requires WritesCurrent(w, es, customer) && AllOwed(w, customer, [])
    requires Positive(ChargesOf(Entries(w, es, customer)))
    ensures w.db.creditTxns <= StepAll(w, es).db.creditTxns
    ensures var ts, entries := StepAll(w, es).db.creditTxns[|w.db.creditTxns|..], Entries(w, es, customer);
            TxnChain(Balance(w.db, customer), ts, customer) <==> LogsOf(entries) <= ChargesOf(entries)
  {
    var entries := Entries(w, es, customer);
    NewTxnsAreLogs(w, es, customer);
    ChainOfCustomer(Balance(w.db, customer), StepAll(w, es).db.creditTxns[|w.db.creditTxns|..], customer);
    ChargesChainIffCurrent(w, es, customer);
    ProperlyCovered(w, es, customer);
    BeginningChains(Balance(w.db, customer), ChargesOf(entries), LogsOf(entries), customer);
  }
}
