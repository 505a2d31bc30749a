/** The credit limit over every interleaving: the gate checks a balance that others may change before
    the charge is written. */
module CreditLimit {
  import opened Wrappers
  import opened StockPool
  import opened Tables
  import opened BillCompletion
  import opened Runs
  import opened Isolation
  import opened Interleaving
  import opened CreditRuns

  /** The balances the gate looked at, by call. */
  type Looks = map<nat, int>

  predicate AtGate(p: Process, customer: Id) {
    p.Process? && p.stage.Gate? && p.bill.saleType.Credit? && p.bill.customer == Some(customer)
  }

  /** The gate lets a credit bill pass although it takes the customer over the limit. */
  predicate GateWaives(db: Db, p: Process, customer: Id) {
    && AtGate(p, customer) && Advance(db, p).1.Process? && Advance(db, p).1.stage.Deduct?
    && customer in db.customers && db.customers[customer].limit.Some?
    && db.customers[customer].balance + p.bill.total > db.customers[customer].limit.value
  }

  function PidOf(e: Event): nat {
    match e
    case Steps(pid) => pid
    case StepsOn(pid, _) => pid
    case _ => 0
  }

  function LooksAfter(w: World, e: Event, customer: Id, looks: Looks): Looks {
    if AtGate(Stepped(w, e), customer) then looks[PidOf(e) := Balance(w.db, customer)] else looks
  }

  /** The event waives nothing, and writes a balance only from one that is no higher than the gate saw it. */
  predicate EventAsChecked(w: World, e: Event, customer: Id, looks: Looks) {
    var p := Stepped(w, e);
    && (e.Serving? ==> !WaivesFor(w.db, e.request, customer))
    && !GateWaives(w.db, p, customer)
    && (p.Process? && p.stage.WriteBalance? && p.bill.customer == Some(customer) ==>
          PidOf(e) in looks && p.stage.customer.balance <= looks[PidOf(e)])
  }

  predicate AsChecked(w: World, es: seq<Event>, customer: Id, looks: Looks)
    decreases |es|
  {
    es == [] ||
    (EventAsChecked(w, es[0], customer, looks)
     && AsChecked(Step(w, es[0]), es[1..], customer, LooksAfter(w, es[0], customer, looks)))
  }

  function LimitOf(db: Db, customer: Id): Option<int> {
    if customer in db.customers then db.customers[customer].limit else None
  }

  /** Past the gate and before the write. */
  predicate Pending(p: Process, customer: Id) {
    && p.Process? && p.bill.customer == Some(customer) && p.bill.saleType.Credit?
    && (p.stage.Deduct? || p.stage.RecordCommission? || p.stage.ReadCustomer? || p.stage.WriteBalance?)
  }

  /** What the gate looked at leaves room for the bill, and copies carry the stored limit. */
  predicate CallWithin(db: Db, pid: nat, p: Process, customer: Id, looks: Looks) {
    && (Pending(p, customer) && pid in looks && LimitOf(db, customer).Some? ==>
          looks[pid] + p.bill.total <= LimitOf(db, customer).value)
    && (p.Process? && p.stage.WriteBalance? && p.bill.customer == Some(customer) ==>
          p.bill.saleType.Credit? && p.stage.customer.limit == LimitOf(db, customer) && customer in db.customers)
    && (p.Process? && p.stage.ReadCustomer? ==> p.bill.saleType.Credit?)
  }

  ghost predicate AllWithin(w: World, customer: Id, looks: Looks) {
    WithinLimit(w.db, customer) && forall pid <- w.processes :: CallWithin(w.db, pid, w.processes[pid], customer, looks)
  }

  /** The limit of a customer never changes, and customers are never removed. */
  predicate SameLimit(db: Db, d: Db, customer: Id) {
    (customer in db.customers <==> customer in d.customers) && LimitOf(d, customer) == LimitOf(db, customer)
  }

  lemma ServeWithin(db: Db, r: Request, customer: Id)
    requires WithinLimit(db, customer) && !WaivesFor(db, r, customer)
    ensures WithinLimit(Serve(db, r), customer) && SameLimit(db, Serve(db, r), customer)
  {
    if r.CompleteRequest? {
      CompletionCharges(db, r.call, r.lifetime);
    } else {
      OtherRequestsKeepCredit(db, r);
    }
  }

  lemma GateWithin(db: Db, pid: nat, p: Process, customer: Id, looks: Looks)
    requires p.Process? && p.stage.Gate? && !GateWaives(db, p, customer)
    ensures var looks' := if AtGate(p, customer) then looks[pid := Balance(db, customer)] else looks;
            SameCredit(db, Advance(db, p).0) && CallWithin(db, pid, Advance(db, p).1, customer, looks')
  {
    StockStepKeepsCredit(db, p);
  }

  lemma MiddleWithin(db: Db, pid: nat, p: Process, customer: Id, looks: Looks)
    requires p.Process? && (p.stage.Deduct? || p.stage.RecordCommission? || p.stage.ReadCustomer?)
    requires CallWithin(db, pid, p, customer, looks)
    ensures SameCredit(db, Advance(db, p).0) && CallWithin(db, pid, Advance(db, p).1, customer, looks)
  {
    if !p.stage.ReadCustomer? {
      StockStepKeepsCredit(db, p);
    }
  }

  lemma WriteWithin(db: Db, pid: nat, p: Process, customer: Id, looks: Looks)
    requires p.Process? && p.stage.WriteBalance? && WithinLimit(db, customer) && CallWithin(db, pid, p, customer, looks)
    requires p.bill.customer == Some(customer) ==> pid in looks && p.stage.customer.balance <= looks[pid]
    ensures var (d, q) := Advance(db, p);
            WithinLimit(d, customer) && SameLimit(db, d, customer) && CallWithin(d, pid, q, customer, looks)
  {
  }

  lemma EndWithin(db: Db, pid: nat, p: Process, customer: Id, looks: Looks)
    requires Ended(p) || p.stage.WriteTxn? || p.stage.Close?
    ensures Advance(db, p).0.customers == db.customers && CallWithin(db, pid, Advance(db, p).1, customer, looks)
  {
  }

  /** One step of one call, whatever its stage. */
  lemma AdvanceWithin(db: Db, pid: nat, p: Process, customer: Id, looks: Looks)
    requires WithinLimit(db, customer) && CallWithin(db, pid, p, customer, looks) && !GateWaives(db, p, customer)
    requires p.Process? && p.stage.WriteBalance? && p.bill.customer == Some(customer) ==>
               pid in looks && p.stage.customer.balance <= looks[pid]
    ensures var (d, q) := Advance(db, p);
            && WithinLimit(d, customer) && SameLimit(db, d, customer)
            && CallWithin(d, pid, q, customer, if AtGate(p, customer) then looks[pid := Balance(db, customer)] else looks)
  {
    if Ended(p) || p.stage.WriteTxn? || p.stage.Close? {
      EndWithin(db, pid, p, customer, looks);
    } else if p.stage.Gate? {
      GateWithin(db, pid, p, customer, looks);
    } else if p.stage.WriteBalance? {
      WriteWithin(db, pid, p, customer, looks);
    } else {
      MiddleWithin(db, pid, p, customer, looks);
    }
  }

  lemma OthersWithin(w: World, d: Db, customer: Id, looks: Looks, looks': Looks, except: nat)
    requires AllWithin(w, customer, looks) && SameLimit(w.db, d, customer)
    requires forall pid <- looks' :: pid != except ==> pid in looks && looks'[pid] == looks[pid]
    ensures forall pid <- w.processes :: pid != except ==> CallWithin(d, pid, w.processes[pid], customer, looks')
  {
  }

  lemma SteppedWithin(w: World, e: Event, customer: Id, looks: Looks)
    requires AllWithin(w, customer, looks) && EventAsChecked(w, e, customer, looks)
    requires (e.Steps? || e.StepsOn?) && PidOf(e) in w.processes
    ensures AllWithin(Step(w, e), customer, LooksAfter(w, e, customer, looks))
  {
    var pid, p, d := PidOf(e), Stepped(w, e), Step(w, e).db;
    var looks' := LooksAfter(w, e, customer, looks);
    AdvanceWithin(w.db, pid, p, customer, looks);
    SteppedCredit(w, e);
    SteppedStage(w, e, customer, looks');
    OthersWithin(w, d, customer, looks, looks', pid);
  }

  /** A sale's reads may decide whether it fails, not what it knows of the customer. */
  lemma SteppedStage(w: World, e: Event, customer: Id, looks: Looks)
    requires (e.Steps? || e.StepsOn?) && PidOf(e) in w.processes
    requires CallWithin(Advance(w.db, Stepped(w, e)).0, PidOf(e), Advance(w.db, Stepped(w, e)).1, customer, looks)
    requires SameCredit(Advance(w.db, Stepped(w, e)).0, Step(w, e).db)
    requires Stepped(w, e).Process? && Stepped(w, e).stage.Deduct? ==>
               CallWithin(w.db, PidOf(e), Stepped(w, e), customer, looks)
    ensures CallWithin(Step(w, e).db, PidOf(e), Step(w, e).processes[PidOf(e)], customer, looks)
  {
    if e.StepsOn? {
      AdvanceOnFrame(w.db, w.processes[e.pid], CopiesOf(w, e.tx));
      if Stepped(w, e).Process? && Stepped(w, e).stage.Deduct? {
        StockStepKeepsCredit(w.db, Stepped(w, e));
      }
    }
  }

  lemma EventWithin(w: World, e: Event, customer: Id, looks: Looks)
    requires AllWithin(w, customer, looks) && EventAsChecked(w, e, customer, looks)
    ensures AllWithin(Step(w, e), customer, LooksAfter(w, e, customer, looks))
  {
    if e.Steps? || e.StepsOn? {
      if PidOf(e) in w.processes {
        SteppedWithin(w, e, customer, looks);
      }
    } else if e.Serving? {
      ServeWithin(w.db, e.request, customer);
      OthersWithin(w, Step(w, e).db, customer, looks, looks, 0);
      if 0 in w.processes { assert CallWithin(w.db, 0, w.processes[0], customer, looks); }
    } else {
      OtherEventsKeepCredit(w, e);
    }
  }

  predicate WithinThroughout(w: World, es: seq<Event>, customer: Id)
    decreases |es|
  {
    WithinLimit(w.db, customer) && (es == [] || WithinThroughout(Step(w, es[0]), es[1..], customer))
  }

  /** Over every interleaving in which nothing is waived and each balance is written from a copy that is
      no higher than the gate saw it, a balance within the limit stays within it. */
  lemma {:induction false} LimitHoldsAsChecked(w: World, es: seq<Event>, customer: Id, looks: Looks)
    requires AllWithin(w, customer, looks) && AsChecked(w, es, customer, looks)
    ensures WithinThroughout(w, es, customer) && WithinLimit(StepAll(w, es).db, customer)
    decreases |es|
  {
    if es != [] {
      EventWithin(w, es[0], customer, looks);
      LimitHoldsAsChecked(Step(w, es[0]), es[1..], customer, LooksAfter(w, es[0], customer, looks));
    }
  }

  // ---- exactly when a run stays within the limit ----

  /** A call past its gate is known, and a copy in hand carries the stored limit. */
  predicate CallLooked(db: Db, pid: nat, p: Process, customer: Id, known: set<nat>) {
    p.Process? && p.bill.customer == Some(customer) ==>
      && (Pending(p, customer) ==> pid in known)
      && (p.stage.ReadCustomer? || p.stage.WriteBalance? ==> p.bill.saleType.Credit?)
      && (p.stage.WriteBalance? ==> p.stage.customer.limit == LimitOf(db, customer) && customer in db.customers)
  }

  ghost predicate AllLooked(w: World, customer: Id, known: set<nat>) {
    forall pid <- w.processes :: CallLooked(w.db, pid, w.processes[pid], customer, known)
  }

  function KnownAfter(w: World, e: Event, customer: Id, known: set<nat>): set<nat> {
    if AtGate(Stepped(w, e), customer) then known + {PidOf(e)} else known
  }

  lemma EarlyLooked(db: Db, pid: nat, p: Process, customer: Id, known: set<nat>)
    requires p.Process? && (p.stage.Gate? || p.stage.Deduct? || p.stage.RecordCommission?)
    requires CallLooked(db, pid, p, customer, known)
    ensures var known' := if AtGate(p, customer) then known + {pid} else known;
            SameCredit(db, Advance(db, p).0) && CallLooked(db, pid, Advance(db, p).1, customer, known')
  {
    StockStepKeepsCredit(db, p);
  }

  lemma LateLooked(db: Db, pid: nat, p: Process, customer: Id, known: set<nat>)
    requires Ended(p) || p.stage.ReadCustomer? || p.stage.WriteBalance? || p.stage.WriteTxn? || p.stage.Close?
    requires CallLooked(db, pid, p, customer, known)
    ensures var (d, q) := Advance(db, p); SameLimit(db, d, customer) && CallLooked(d, pid, q, customer, known)
  {
  }

  lemma AdvanceLooked(db: Db, pid: nat, p: Process, customer: Id, known: set<nat>)
    requires CallLooked(db, pid, p, customer, known)
    ensures var (d, q) := Advance(db, p);
            var known' := if AtGate(p, customer) then known + {pid} else known;
            SameLimit(db, d, customer) && CallLooked(d, pid, q, customer, known')
  {
    if p.Process? && (p.stage.Gate? || p.stage.Deduct? || p.stage.RecordCommission?) {
      EarlyLooked(db, pid, p, customer, known);
    } else {
      LateLooked(db, pid, p, customer, known);
    }
  }

  /** A sale's reads may decide whether it fails, not what it knows of the customer. */
  lemma SteppedLooked(w: World, e: Event, customer: Id, known: set<nat>)
    requires (e.Steps? || e.StepsOn?) && PidOf(e) in w.processes && AllLooked(w, customer, known)
    ensures SameLimit(w.db, Step(w, e).db, customer)
    ensures CallLooked(Step(w, e).db, PidOf(e), Step(w, e).processes[PidOf(e)], customer, KnownAfter(w, e, customer, known))
  {
    var pid, p := PidOf(e), Stepped(w, e);
    AdvanceLooked(w.db, pid, p, customer, known);
    SteppedCredit(w, e);
    if e.StepsOn? {
      AdvanceOnFrame(w.db, p, CopiesOf(w, e.tx));
      if p.Process? && p.stage.Deduct? {
        StockStepKeepsCredit(w.db, p);
      }
    }
  }

  lemma OthersLooked(w: World, d: Db, customer: Id, known: set<nat>, known': set<nat>, pid: nat)
    requires AllLooked(w, customer, known) && SameLimit(w.db, d, customer) && known <= known'
    requires pid in w.processes
    ensures CallLooked(d, pid, w.processes[pid], customer, known')
  {
    assert CallLooked(w.db, pid, w.processes[pid], customer, known);
  }

  lemma ServeKeepsLimit(db: Db, r: Request, customer: Id)
    ensures SameLimit(db, Serve(db, r), customer)
  {
    if r.CompleteRequest? {
      CompletionCharges(db, r.call, r.lifetime);
    } else {
      OtherRequestsKeepCredit(db, r);
    }
  }

  lemma EventKeepsLimit(w: World, e: Event, customer: Id, known: set<nat>)
    requires AllLooked(w, customer, known)
    ensures SameLimit(w.db, Step(w, e).db, customer)
  {
    if e.Serving? {
      ServeKeepsLimit(w.db, e.request, customer);
    } else if (e.Steps? || e.StepsOn?) && PidOf(e) in w.processes {
      SteppedLooked(w, e, customer, known);
    } else if !e.Steps? && !e.StepsOn? {
      OtherEventsKeepCredit(w, e);
    }
  }

  lemma EventLooked(w: World, e: Event, customer: Id, known: set<nat>)
    requires AllLooked(w, customer, known)
    ensures AllLooked(Step(w, e), customer, KnownAfter(w, e, customer, known))
  {
    var known' := KnownAfter(w, e, customer, known);
    EventKeepsLimit(w, e, customer, known);
    forall pid <- Step(w, e).processes ensures CallLooked(Step(w, e).db, pid, Step(w, e).processes[pid], customer, known') {
      CallStaysLooked(w, e, customer, known, pid);
    }
  }

  lemma CallStaysLooked(w: World, e: Event, customer: Id, known: set<nat>, pid: nat)
    requires AllLooked(w, customer, known) && SameLimit(w.db, Step(w, e).db, customer) && pid in Step(w, e).processes
    ensures CallLooked(Step(w, e).db, pid, Step(w, e).processes[pid], customer, KnownAfter(w, e, customer, known))
  {
    if (e.Steps? || e.StepsOn?) && PidOf(e) == pid {
      SteppedLooked(w, e, customer, known);
    } else if pid in w.processes {
      OtherCall(w, e, pid);
      OthersLooked(w, Step(w, e).db, customer, known, KnownAfter(w, e, customer, known), pid);
    }
  }

  // ---- what others charge between a gate and its charge ----

  /** The call is about to write the customer's balance. */
  predicate WritesTo(p: Process, customer: Id) {
    p.Process? && p.stage.WriteBalance? && p.bill.customer == Some(customer)
  }

  /** The totals an event charges to the customer. */
  function ChargedBy(w: World, e: Event, customer: Id): int {
    TxnSum(ChargesOf(EventEntries(w, e, customer)), customer)
  }

  /** The balance a call's gate saw, by how much balances have grown from then to its read of the
      customer, and since that read. */
  datatype Tally = Tally(look: int, gained: int, late: int)

  type Tallies = map<nat, Tally>

  /** What a write takes back: all growth since its call has read the customer. */
  function Overwritten(w: World, e: Event, customer: Id, tallies: Tallies): int {
    if WritesTo(Stepped(w, e), customer) && PidOf(e) in tallies then tallies[PidOf(e)].late else 0
  }

  function Growth(w: World, e: Event, customer: Id, tallies: Tallies): int {
    ChargedBy(w, e, customer) - Overwritten(w, e, customer, tallies)
  }

  predicate HasRead(w: World, pid: nat) {
    pid in w.processes && w.processes[pid].Process? && w.processes[pid].stage.WriteBalance?
  }

  function Grown(t: Tally, read: bool, growth: int): Tally {
    if read then t.(late := t.late + growth) else t.(gained := t.gained + growth)
  }

  function TalliesAfter(w: World, e: Event, customer: Id, tallies: Tallies): Tallies {
    var grown := map pid <- tallies :: Grown(tallies[pid], HasRead(w, pid), Growth(w, e, customer, tallies));
    if AtGate(Stepped(w, e), customer) then grown[PidOf(e) := Tally(Balance(w.db, customer), 0, 0)] else grown
  }

  /** The room a look leaves beyond the bill. */
  function Slack(look: int, total: int, limit: int): int {
    limit - (look + total)
  }

  /** A completion served alone waives nothing, or charges nothing, or fits. */
  predicate ServedFits(w: World, e: Event, customer: Id, limit: int) {
    e.Serving? && WaivesFor(w.db, e.request, customer) && ChargesOf(EventEntries(w, e, customer)) != [] ==>
      0 <= Slack(Balance(w.db, customer), w.db.bills[e.request.call.bill].total, limit)
  }

  /** What others have charged, and not lost again, between the gate's look and the read is no more than
      the room the look left. */
  predicate EventFits(w: World, e: Event, customer: Id, tallies: Tallies, limit: int) {
    var p, pid := Stepped(w, e), PidOf(e);
    && ServedFits(w, e, customer, limit)
    && (WritesTo(p, customer) ==>
          pid in tallies && tallies[pid].gained <= Slack(tallies[pid].look, p.bill.total, limit))
  }

  predicate AllFit(w: World, es: seq<Event>, customer: Id, tallies: Tallies, limit: int)
    decreases |es|
  {
    es == [] ||
    (EventFits(w, es[0], customer, tallies, limit)
     && AllFit(Step(w, es[0]), es[1..], customer, TalliesAfter(w, es[0], customer, tallies), limit))
  }

  /** The tallies add up: to the copy in hand, and to the stored balance. */
  predicate TallyTrue(db: Db, p: Process, customer: Id, t: Tally) {
    Pending(p, customer) ==>
      if p.stage.WriteBalance? then
        p.stage.customer.balance == t.look + t.gained && Balance(db, customer) == t.look + t.gained + t.late
      else Balance(db, customer) == t.look + t.gained && t.late == 0
  }

  ghost predicate AllTallied(w: World, customer: Id, tallies: Tallies) {
    && AllLooked(w, customer, tallies.Keys)
    && forall pid <- w.processes :: pid in tallies ==> TallyTrue(w.db, w.processes[pid], customer, tallies[pid])
  }

  lemma {:induction false} DriveAmounts(db: Db, p: Process, k: nat, customer: Id)
    ensures forall t <- ChargesOf(DriveEntries(db, p, k, customer)) :: p.Process? && t.amount == p.bill.total
    ensures |ChargesOf(DriveEntries(db, p, k, customer))| <= 1
    ensures !MayCharge(p) ==> ChargesOf(DriveEntries(db, p, k, customer)) == []
    decreases k
  {
    if k > 0 {
      var (d, q) := Advance(db, p);
      var first := StepEntries(p, customer);
      DriveAmounts(d, q, k - 1, customer);
      ChargesConcat(first, DriveEntries(d, q, k - 1, customer));
      assert first != [] ==> first[1..] == [];
      ChargedOnce(db, p);
      AdvanceKeepsProcess(db, p);
    }
  }

  predicate MayCharge(p: Process) {
    p.Process? && (p.stage.Gate? || p.stage.Deduct? || p.stage.RecordCommission? || p.stage.ReadCustomer? || p.stage.WriteBalance?)
  }

  lemma ChargedOnce(db: Db, p: Process)
    ensures !MayCharge(p) || p.stage.WriteBalance? ==> !MayCharge(Advance(db, p).1)
  {
  }

  /** A completion served alone charges its bill to the stored balance, or nothing. */
  lemma ServedGrowth(db: Db, call: CompleteCall, k: nat, customer: Id) returns (charges: seq<CreditTxn>)
    ensures charges == ChargesOf(DriveEntries(db, Begin(db, call), k, customer))
    ensures Balance(Drive(db, Begin(db, call), k).0, customer) == Balance(db, customer) + TxnSum(charges, customer)
    ensures charges != [] ==> call.bill in db.bills && TxnSum(charges, customer) == db.bills[call.bill].total
  {
    var p := Begin(db, call);
    var end, entries := DriveBalance(db, p, k, customer);
    charges := ChargesOf(entries);
    DriveIsCurrent(db, p, k, customer);
    DriveChainIff(db, p, k, customer);
    DriveEntriesProper(db, p, k, customer);
    ChargesProper(entries, customer);
    ChainSum(Balance(db, customer), charges, customer);
    DriveAmounts(db, p, k, customer);
    if charges != [] {
      assert charges[0] in charges && charges[1..] == [];
    }
  }

  lemma StepCharges(p: Process, customer: Id)
    ensures var charges := ChargesOf(StepEntries(p, customer));
            if WritesTo(p, customer)
            then charges == [TxnOf(p, customer, p.stage.customer.balance)] && TxnSum(charges, customer) == p.bill.total
            else charges == [] && TxnSum(charges, customer) == 0
  {
    var entries := StepEntries(p, customer);
    assert entries != [] ==> entries == [entries[0]] && entries[1..] == [];
    assert ChargesOf(entries) == (if entries != [] && entries[0].Charge? then [entries[0].txn] else []);
    var charges := ChargesOf(entries);
    assert charges == [] || charges == [charges[0]];
    assert charges != [] ==> [charges[0]][1..] == [];
  }

  /** Balances grow by what is charged less what is overwritten. */
  lemma BalanceGrows(w: World, e: Event, customer: Id, tallies: Tallies)
    requires AllTallied(w, customer, tallies)
    ensures Balance(Step(w, e).db, customer) == Balance(w.db, customer) + Growth(w, e, customer, tallies)
  {
    if e.Serving? && e.request.CompleteRequest? {
      var charges := ServedGrowth(w.db, e.request.call, e.request.lifetime, customer);
    } else {
      StepBalance(w, e, customer);
      StepCharges(Stepped(w, e), customer);
      if WritesTo(Stepped(w, e), customer) {
        assert CallLooked(w.db, PidOf(e), w.processes[PidOf(e)], customer, tallies.Keys);
      }
    }
  }

  /** The call that takes the step. */
  lemma AdvanceTallied(db: Db, pid: nat, p: Process, customer: Id, t: Tally)
    requires CallLooked(db, pid, p, customer, {pid}) && !WritesTo(p, customer)
    requires if AtGate(p, customer) then t == Tally(Balance(db, customer), 0, 0) else TallyTrue(db, p, customer, t)
    ensures TallyTrue(Advance(db, p).0, Advance(db, p).1, customer, t)
  {
    if p.Process? && !p.stage.WriteBalance? {
      AdvanceCustomers(db, p);
      AdvanceStages(db, p, customer);
    }
  }

  /** How a call comes to be past its gate, and to hold a copy. */
  lemma AdvanceStages(db: Db, p: Process, customer: Id)
    requires p.Process?
    ensures var q := Advance(db, p).1;
            && (Pending(q, customer) && !Pending(p, customer) ==> AtGate(p, customer) && q.stage.Deduct?)
            && (Pending(q, customer) && q.stage.WriteBalance? ==>
                  p.stage.ReadCustomer? && q.stage.customer.balance == Balance(db, customer))
  {
  }

  /** A step that does not write leaves the call's own tally alone, unless it is the gate's. */
  lemma OwnTally(w: World, e: Event, customer: Id, tallies: Tallies)
    requires !e.Serving? && !WritesTo(Stepped(w, e), customer) && PidOf(e) in TalliesAfter(w, e, customer, tallies)
    ensures var t := TalliesAfter(w, e, customer, tallies)[PidOf(e)];
            if AtGate(Stepped(w, e), customer) then t == Tally(Balance(w.db, customer), 0, 0)
            else PidOf(e) in tallies && t == tallies[PidOf(e)]
  {
    StepCharges(Stepped(w, e), customer);
    assert Growth(w, e, customer, tallies) == 0;
  }

  lemma FailedTallied(db: Db, d: Db, p: Process, q: Process, customer: Id, t: Tally)
    requires p.Process? && p.stage.Deduct? && q.Process? && q == p.(stage := q.stage) && (q.stage.RecordCommission? || q.stage.Failed?)
    requires SameCredit(db, d) && TallyTrue(db, p, customer, t)
    ensures TallyTrue(d, q, customer, t)
  {
  }

  lemma SteppedTallied(w: World, e: Event, customer: Id, tallies: Tallies)
    requires (e.Steps? || e.StepsOn?) && PidOf(e) in w.processes && AllTallied(w, customer, tallies)
    requires PidOf(e) in TalliesAfter(w, e, customer, tallies)
    ensures TallyTrue(Step(w, e).db, Step(w, e).processes[PidOf(e)], customer, TalliesAfter(w, e, customer, tallies)[PidOf(e)])
  {
    var pid, p, t := PidOf(e), Stepped(w, e), TalliesAfter(w, e, customer, tallies)[PidOf(e)];
    var q := Step(w, e).processes[pid];
    SteppedStages(w, e, customer);
    if !WritesTo(p, customer) {
      OwnTally(w, e, customer, tallies);
      SteppedCredit(w, e);
      AdvanceTallied(w.db, pid, p, customer, t);
      if q != Advance(w.db, p).1 {
        StockStepKeepsCredit(w.db, p);
        FailedTallied(w.db, Step(w, e).db, p, q, customer, t);
      }
    }
  }

  /** A sale's reads decide at most whether the call fails. */
  lemma SteppedStages(w: World, e: Event, customer: Id)
    requires (e.Steps? || e.StepsOn?) && PidOf(e) in w.processes
    ensures var q := Step(w, e).processes[PidOf(e)];
            && (WritesTo(Stepped(w, e), customer) ==> !Pending(q, customer))
            && (q == Advance(w.db, Stepped(w, e)).1
                || (Stepped(w, e).Process? && Stepped(w, e).stage.Deduct?
                    && q == Stepped(w, e).(stage := q.stage) && (q.stage.RecordCommission? || q.stage.Failed?)))
  {
    if e.StepsOn? {
      AdvanceOnFrame(w.db, Stepped(w, e), CopiesOf(w, e.tx));
    }
  }

  lemma OthersTallied(w: World, d: Db, customer: Id, tallies: Tallies, growth: int, pid: nat)
    requires AllTallied(w, customer, tallies) && pid in w.processes && pid in tallies
    requires Balance(d, customer) == Balance(w.db, customer) + growth
    ensures TallyTrue(d, w.processes[pid], customer, Grown(tallies[pid], HasRead(w, pid), growth))
  {
    assert TallyTrue(w.db, w.processes[pid], customer, tallies[pid]);
  }

  lemma CallStaysTallied(w: World, e: Event, customer: Id, tallies: Tallies, pid: nat)
    requires AllTallied(w, customer, tallies) && pid in Step(w, e).processes && pid in TalliesAfter(w, e, customer, tallies)
    ensures TallyTrue(Step(w, e).db, Step(w, e).processes[pid], customer, TalliesAfter(w, e, customer, tallies)[pid])
  {
    if pid !in w.processes {
      NewCall(w, e, pid);
    } else if (e.Steps? || e.StepsOn?) && PidOf(e) == pid {
      SteppedTallied(w, e, customer, tallies);
    } else {
      OtherCall(w, e, pid);
      BalanceGrows(w, e, customer, tallies);
      OthersTallied(w, Step(w, e).db, customer, tallies, Growth(w, e, customer, tallies), pid);
    }
  }

  lemma EventTallied(w: World, e: Event, customer: Id, tallies: Tallies)
    requires AllTallied(w, customer, tallies)
    ensures AllTallied(Step(w, e), customer, TalliesAfter(w, e, customer, tallies))
  {
    var tallies' := TalliesAfter(w, e, customer, tallies);
    EventLooked(w, e, customer, tallies.Keys);
    assert tallies'.Keys == KnownAfter(w, e, customer, tallies.Keys);
    forall pid <- Step(w, e).processes | pid in tallies' ensures TallyTrue(Step(w, e).db, Step(w, e).processes[pid], customer, tallies'[pid]) {
      CallStaysTallied(w, e, customer, tallies, pid);
    }
  }

  lemma ServedFitsIff(w: World, e: Event, customer: Id, limit: int)
    requires e.Serving? && WithinLimit(w.db, customer) && LimitOf(w.db, customer) == Some(limit)
    requires SameLimit(w.db, Step(w, e).db, customer)
    ensures WithinLimit(Step(w, e).db, customer) <==> ServedFits(w, e, customer, limit)
  {
    if !WaivesFor(w.db, e.request, customer) {
      ServeWithin(w.db, e.request, customer);
    } else {
      var charges := ServedGrowth(w.db, e.request.call, e.request.lifetime, customer);
    }
  }

  lemma EventFitsIff(w: World, e: Event, customer: Id, tallies: Tallies, limit: int)
    requires AllTallied(w, customer, tallies) && WithinLimit(w.db, customer) && LimitOf(w.db, customer) == Some(limit)
    ensures WithinLimit(Step(w, e).db, customer) <==> EventFits(w, e, customer, tallies, limit)
  {
    EventKeepsLimit(w, e, customer, tallies.Keys);
    if e.Serving? {
      ServedFitsIff(w, e, customer, limit);
    } else {
      BalanceGrows(w, e, customer, tallies);
      StepCharges(Stepped(w, e), customer);
      if WritesTo(Stepped(w, e), customer) {
        assert CallLooked(w.db, PidOf(e), w.processes[PidOf(e)], customer, tallies.Keys);
        assert TallyTrue(w.db, w.processes[PidOf(e)], customer, tallies[PidOf(e)]);
      }
    }
  }

  /** Over every interleaving, lost charges included: a balance is within its limit in all states exactly
      when, for each write, what others have charged in net between its gate's look and its read is no
      more than the room the look left. Completions served alone need nothing but their own gate, unless
      it is waived. */
  lemma {:induction false} WithinIffGainsFit(w: World, es: seq<Event>, customer: Id, tallies: Tallies, limit: int)
    requires AllTallied(w, customer, tallies) && WithinLimit(w.db, customer) && LimitOf(w.db, customer) == Some(limit)
    ensures WithinThroughout(w, es, customer) <==> AllFit(w, es, customer, tallies, limit)
    decreases |es|
  {
    if es != [] {
      EventFitsIff(w, es[0], customer, tallies, limit);
      EventKeepsLimit(w, es[0], customer, tallies.Keys);
      EventTallied(w, es[0], customer, tallies);
      if EventFits(w, es[0], customer, tallies, limit) {
        WithinIffGainsFit(Step(w, es[0]), es[1..], customer, TalliesAfter(w, es[0], customer, tallies), limit);
      }
    }
  }

  // ---- the same with current writes ----

  /** The balance a call's gate saw, and the totals charged since. */
  datatype GateLook = GateLook(balance: int, charged: int)

  type GateLooks = map<nat, GateLook>

  function ChargedAfter(w: World, e: Event, customer: Id, looks: GateLooks): GateLooks {
    var later := map pid <- looks :: looks[pid].(charged := looks[pid].charged + ChargedBy(w, e, customer));
    if AtGate(Stepped(w, e), customer) then later[PidOf(e) := GateLook(Balance(w.db, customer), 0)] else later
  }

  predicate EventCovered(w: World, e: Event, customer: Id, looks: GateLooks, limit: int) {
    var p, pid := Stepped(w, e), PidOf(e);
    WritesTo(p, customer) ==> pid in looks && looks[pid].charged <= Slack(looks[pid].balance, p.bill.total, limit)
  }

  predicate AllCovered(w: World, es: seq<Event>, customer: Id, looks: GateLooks, limit: int)
    decreases |es|
  {
    es == [] ||
    (EventCovered(w, es[0], customer, looks, limit)
     && AllCovered(Step(w, es[0]), es[1..], customer, ChargedAfter(w, es[0], customer, looks), limit))
  }

  /** No completion that is served alone is waived; the gates of the others may be. */
  predicate NoneServedWaived(w: World, es: seq<Event>, customer: Id)
    decreases |es|
  {
    es == [] ||
    ((es[0].Serving? ==> !WaivesFor(w.db, es[0].request, customer)) && NoneServedWaived(Step(w, es[0]), es[1..], customer))
  }

  predicate LooksTrue(db: Db, customer: Id, looks: GateLooks) {
    forall pid <- looks :: Balance(db, customer) == looks[pid].balance + looks[pid].charged
  }

  lemma CurrentGrowth(w: World, e: Event, customer: Id)
    requires EventCurrent(w, e, customer)
    ensures Balance(Step(w, e).db, customer) == Balance(w.db, customer) + ChargedBy(w, e, customer)
  {
    var charges := ChargesOf(EventEntries(w, e, customer));
    EventChainIff(w, e, customer);
    StepBalance(w, e, customer);
    ChainSum(Balance(w.db, customer), charges, customer);
  }

  lemma EventCoveredIff(w: World, e: Event, customer: Id, looks: GateLooks, limit: int)
    requires AllLooked(w, customer, looks.Keys) && LooksTrue(w.db, customer, looks) && EventCurrent(w, e, customer)
    requires WithinLimit(w.db, customer) && LimitOf(w.db, customer) == Some(limit)
    requires e.Serving? ==> !WaivesFor(w.db, e.request, customer)
    ensures WithinLimit(Step(w, e).db, customer) <==> EventCovered(w, e, customer, looks, limit)
  {
    EventKeepsLimit(w, e, customer, looks.Keys);
    if e.Serving? {
      ServeWithin(w.db, e.request, customer);
    } else {
      CurrentGrowth(w, e, customer);
      StepCharges(Stepped(w, e), customer);
      if WritesTo(Stepped(w, e), customer) {
        assert CallLooked(w.db, PidOf(e), w.processes[PidOf(e)], customer, looks.Keys);
      }
    }
  }

  /** Over every interleaving with current writes, in which what is served alone waives nothing: a balance
      is within its limit in all states exactly when, for each write, the totals charged since its gate's
      look are no more than the room the look left beyond its own bill. */
  lemma {:induction false} WithinIffChargesFit(w: World, es: seq<Event>, customer: Id, looks: GateLooks, limit: int)
    requires AllLooked(w, customer, looks.Keys) && LooksTrue(w.db, customer, looks)
    requires WritesCurrent(w, es, customer) && NoneServedWaived(w, es, customer)
    requires WithinLimit(w.db, customer) && LimitOf(w.db, customer) == Some(limit)
    ensures WithinThroughout(w, es, customer) <==> AllCovered(w, es, customer, looks, limit)
    decreases |es|
  {
    if es != [] {
      var looks' := ChargedAfter(w, es[0], customer, looks);
      EventCoveredIff(w, es[0], customer, looks, limit);
      EventKeepsLimit(w, es[0], customer, looks.Keys);
      EventLooked(w, es[0], customer, looks.Keys);
      LooksStayTrue(w, es[0], customer, looks);
      if EventCovered(w, es[0], customer, looks, limit) {
        WithinIffChargesFit(Step(w, es[0]), es[1..], customer, looks', limit);
      }
    }
  }

  lemma LooksStayTrue(w: World, e: Event, customer: Id, looks: GateLooks)
    requires LooksTrue(w.db, customer, looks) && EventCurrent(w, e, customer)
    ensures var looks' := ChargedAfter(w, e, customer, looks);
            LooksTrue(Step(w, e).db, customer, looks') && looks'.Keys == KnownAfter(w, e, customer, looks.Keys)
  {
    CurrentGrowth(w, e, customer);
    StepCharges(Stepped(w, e), customer);
    assert AtGate(Stepped(w, e), customer) ==> ChargedBy(w, e, customer) == 0;
  }

  // ---- two gates before two charges ----

  lemma {:induction false} StepAllConcat(w: World, a: seq<Event>, b: seq<Event>)
    ensures StepAll(w, a + b) == StepAll(StepAll(w, a), b)
    decreases |a|
  {
    if a == [] {
      assert a + b == b;
    } else {
      assert (a + b)[1..] == a[1..] + b;
      StepAllConcat(Step(w, a[0]), a[1..], b);
    }
  }

  predicate ReadyToCharge(w: World, pid: nat, customer: Id) {
    && pid in w.processes && customer in w.db.customers
    && (var p := w.processes[pid];
        && p.Process? && p.bill.saleType.Credit? && p.bill.customer == Some(customer) && p.bill.items == [])
  }

  /** One step of a call, everything else left alone. */
  lemma StepAlone(w: World, pid: nat)
    requires pid in w.processes
    ensures var (d, q) := Advance(w.db, w.processes[pid]);
            StepAll(w, [Steps(pid)]) == w.(db := d, processes := w.processes[pid := q])
  {
    assert [Steps(pid)][1..] == [];
    assert StepAll(w, [Steps(pid)]) == StepAll(Step(w, Steps(pid)), []);
  }

  /** From the stock transaction on, four steps of one call charge its bill. */
  lemma ChargeUndisturbed(w: World, pid: nat, customer: Id) returns (end: World)
    requires ReadyToCharge(w, pid, customer) && w.processes[pid].stage.Deduct?
    ensures end == StepAll(w, [Steps(pid)] + [Steps(pid)] + [Steps(pid)] + [Steps(pid)])
    ensures pid in end.processes && end.processes == w.processes[pid := end.processes[pid]]
    ensures SameLimit(w.db, end.db, customer)
    ensures Balance(end.db, customer) == Balance(w.db, customer) + w.processes[pid].bill.total
  {
    var e := [Steps(pid)];
    StepAlone(w, pid);
    var w1 := StepAll(w, e);
    assert w1.db.customers == w.db.customers && w1.processes[pid] == w.processes[pid].(stage := RecordCommission);
    StepAlone(w1, pid);
    var w2 := StepAll(w1, e);
    assert w2.db.customers == w.db.customers && w2.processes[pid] == w.processes[pid].(stage := ReadCustomer);
    StepAlone(w2, pid);
    var w3 := StepAll(w2, e);
    assert w3.db.customers == w.db.customers
           && w3.processes[pid] == w.processes[pid].(stage := WriteBalance(w.db.customers[customer]));
    StepAlone(w3, pid);
    end := StepAll(w3, e);
    StepAllConcat(w, e, e);
    StepAllConcat(w, e + e, e);
    StepAllConcat(w, e + e + e, e);
  }

  /** A run of two bills without lines: both gates pass within the limit, and the charges then follow
      one another undisturbed. Nothing is overwritten, nothing waived, and the balance ends above the
      limit exactly when the two totals together exceed what was left. */
  lemma TwoGatesBeforeTwoCharges(w: World, a: nat, b: nat, customer: Id) returns (es: seq<Event>)
    requires a != b && ReadyToCharge(w, a, customer) && ReadyToCharge(w, b, customer)
    requires w.processes[a].stage.Gate? && w.processes[b].stage.Gate?
    requires !w.processes[a].call.override && !w.processes[b].call.override
    requires LimitOf(w.db, customer).Some?
    requires Balance(w.db, customer) + w.processes[a].bill.total <= LimitOf(w.db, customer).value
    requires Balance(w.db, customer) + w.processes[b].bill.total <= LimitOf(w.db, customer).value
    ensures |es| == 10 && es[0] == Steps(a) && es[1] == Steps(b)
    ensures var total := w.processes[a].bill.total + w.processes[b].bill.total;
            var end := StepAll(w, es).db;
            && Balance(end, customer) == Balance(w.db, customer) + total
            && (WithinLimit(end, customer) <==> Balance(w.db, customer) + total <= LimitOf(w.db, customer).value)
  {
    var ga, gb := [Steps(a)], [Steps(b)];
    StepAlone(w, a);
    var w1 := StepAll(w, ga);
    assert w1.db == w.db && w1.processes[a] == w.processes[a].(stage := Deduct);
    StepAlone(w1, b);
    var w2 := StepAll(w1, gb);
    assert w2.db == w.db && w2.processes[b] == w.processes[b].(stage := Deduct);
    var w3 := ChargeUndisturbed(w2, a, customer);
    var w4 := ChargeUndisturbed(w3, b, customer);
    var ca, cb := ga + ga + ga + ga, gb + gb + gb + gb;
    es := ga + gb + ca + cb;
    StepAllConcat(w, ga, gb);
    StepAllConcat(w, ga + gb, ca);
    StepAllConcat(w, ga + gb + ca, cb);
  }
}
