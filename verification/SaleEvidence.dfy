/** No two completed bills share their stock movements: every sale of a run has a stretch of the
    movement list to itself, and every bill completed in the run has a sale of its own. */
module SaleEvidence {
  import opened StockPool
  import opened Tables
  import opened StockOrchestration
  import opened StockProofs
  import opened BillCompletion
  import opened Runs
  import opened Isolation
  import opened Interleaving
  import opened CrashSafety

  /** A bill as the call sold it, and where its movements begin. */
  datatype Sale = Sale(bill: Bill, at: nat)

  function StepSales(db: Db, p: Process, q: Process): seq<Sale> {
    if p.Process? && p.stage.Deduct? && q.Process? && q.stage.RecordCommission?
    then [Sale(p.bill, |SalePool(db, p.bill).movements|)] else []
  }

  function DriveSales(db: Db, p: Process, k: nat): seq<Sale>
    decreases k
  {
    if k == 0 then [] else
    var (d, q) := Advance(db, p);
    StepSales(db, p, q) + DriveSales(d, q, k - 1)
  }

  function EventSales(w: World, e: Event): seq<Sale> {
    match e
    case Serving(r) => if r.CompleteRequest? then DriveSales(w.db, Begin(w.db, r.call), r.lifetime) else []
    case Steps(pid) =>
      if pid in w.processes then StepSales(w.db, w.processes[pid], Advance(w.db, w.processes[pid]).1) else []
    case StepsOn(pid, tx) =>
      if pid in w.processes
      then StepSales(w.db, w.processes[pid], AdvanceOn(w.db, w.processes[pid], CopiesOf(w, tx)).1) else []
    case _ => []
  }

  /** The sales of a run, in their order. */
  function Sales(w: World, es: seq<Event>): seq<Sale>
    decreases |es|
  {
    if es == [] then [] else EventSales(w, es[0]) + Sales(Step(w, es[0]), es[1..])
  }

  predicate SamePool(a: Sale, b: Sale) {
    a.bill.saleType.Black? == b.bill.saleType.Black?
  }

  /** Every sale's movements stand where it says, after those of all earlier sales of its pool. */
  ghost predicate Apart(db: Db, sales: seq<Sale>) {
    && (forall i :: 0 <= i < |sales| ==> HasSaleMovements(db, sales[i].bill, sales[i].at))
    && (forall i, j :: 0 <= i < j < |sales| && SamePool(sales[i], sales[j]) ==>
          sales[i].at + |sales[i].bill.items| <= sales[j].at)
  }

  predicate InFlight(p: Process) {
    p.Process? && (p.stage.RecordCommission? || p.stage.ReadCustomer? || p.stage.WriteBalance? || p.stage.WriteTxn?
                   || p.stage.Close?)
  }

  /** A sale of the bill is on the list: of the copy a completion loaded, and so of the bill as it stands
      unless it has been edited. */
  predicate Claimed(sales: seq<Sale>, bill: Bill, h: History) {
    exists i :: 0 <= i < |sales| && IsSaleOf(sales[i], bill, h)
  }

  predicate IsSaleOf(sale: Sale, bill: Bill, h: History) {
    sale.bill in h.loads && Agrees(sale.bill, bill, h)
  }

  predicate CallClaimed(sales: seq<Sale>, p: Process) {
    InFlight(p) ==> exists i :: 0 <= i < |sales| && sales[i].bill == p.bill
  }

  /** Bills completed since `before` have a sale. */
  predicate BillsClaimed(db: Db, sales: seq<Sale>, before: set<Id>, h: History) {
    forall id <- db.bills :: db.bills[id].status.Closed? && id !in before ==> Claimed(sales, db.bills[id], h)
  }

  lemma ClaimedMore(sales: seq<Sale>, more: seq<Sale>, bill: Bill, bill': Bill, h: History, h': History)
    requires Claimed(sales, bill, h) && Core(bill') == Core(bill) && h.loads <= h'.loads && h.edited <= h'.edited
    requires bill'.id !in h'.edited ==> Fixed(bill') == Fixed(bill)
    ensures Claimed(sales + more, bill', h')
  {
    var i :| 0 <= i < |sales| && IsSaleOf(sales[i], bill, h);
    assert Core(bill').id == bill'.id && Core(bill).id == bill.id;
    assert (sales + more)[i] == sales[i] && IsSaleOf(sales[i], bill', h');
  }

  lemma CallClaimedMore(sales: seq<Sale>, more: seq<Sale>, p: Process)
    requires CallClaimed(sales, p)
    ensures CallClaimed(sales + more, p)
  {
    if InFlight(p) {
      var i :| 0 <= i < |sales| && sales[i].bill == p.bill;
      assert (sales + more)[i] == sales[i];
    }
  }

  lemma ApartStays(a: Db, b: Db, sales: seq<Sale>)
    requires KeepsLedgers(a, b) && Apart(a, sales)
    ensures Apart(b, sales)
  {
    forall i | 0 <= i < |sales| ensures HasSaleMovements(b, sales[i].bill, sales[i].at) {
      MovementsStay(a, b, sales[i].bill, sales[i].at);
    }
  }

  /** One more sale, at the end of its pool's list. */
  lemma ApartMore(a: Db, b: Db, sales: seq<Sale>, bill: Bill)
    requires KeepsLedgers(a, b) && Apart(a, sales) && HasSaleMovements(b, bill, |SalePool(a, bill).movements|)
    ensures Apart(b, sales + [Sale(bill, |SalePool(a, bill).movements|)])
  {
    ApartStays(a, b, sales);
    forall i | 0 <= i < |sales| && SamePool(sales[i], Sale(bill, 0))
      ensures sales[i].at + |sales[i].bill.items| <= |SalePool(a, bill).movements|
    {
      assert HasSaleMovements(a, sales[i].bill, sales[i].at);
    }
  }

  lemma StepApart(db: Db, p: Process, d: Db, q: Process, sales: seq<Sale>)
    requires KeepsLedgers(db, d) && Apart(db, sales)
    requires StepSales(db, p, q) != [] ==> HasSaleMovements(d, p.bill, |SalePool(db, p.bill).movements|)
    ensures Apart(d, sales + StepSales(db, p, q))
  {
    if StepSales(db, p, q) == [] {
      ApartStays(db, d, sales);
      assert sales + [] == sales;
    } else {
      ApartMore(db, d, sales, p.bill);
    }
  }

  /** What a call owes the list of sales after a step. */
  lemma StepClaims(db: Db, p: Process, q: Process, sales: seq<Sale>)
    requires CallClaimed(sales, p)
    requires q.Process? == p.Process? && (q.Process? ==> q.bill == p.bill)
    requires InFlight(q) ==> InFlight(p) || StepSales(db, p, q) != []
    ensures CallClaimed(sales + StepSales(db, p, q), q)
  {
    if InFlight(p) {
      CallClaimedMore(sales, StepSales(db, p, q), p);
    } else if StepSales(db, p, q) != [] {
      assert (sales + StepSales(db, p, q))[|sales|].bill == p.bill;
    }
  }

  lemma ClaimsStay(a: Db, b: Db, sales: seq<Sale>, more: seq<Sale>, before: set<Id>, h: History, h': History)
    requires BillsClaimed(a, sales, before, h) && KeepsBills(a, b, h'.edited)
    requires h.loads <= h'.loads && h.edited <= h'.edited
    requires (forall id <- a.bills :: a.bills[id].id == id) && (forall id <- b.bills :: b.bills[id].id == id)
    requires forall id <- b.bills :: b.bills[id].status.Closed? ==>
               Claimed(sales, b.bills[id], h') || (id in a.bills && a.bills[id].status.Closed?)
    ensures BillsClaimed(b, sales + more, before, h')
  {
    forall id <- b.bills | b.bills[id].status.Closed? && id !in before ensures Claimed(sales + more, b.bills[id], h') {
      if Claimed(sales, b.bills[id], h') {
        ClaimedMore(sales, more, b.bills[id], b.bills[id], h', h');
      } else {
        ClaimedMore(sales, more, a.bills[id], b.bills[id], h, h');
      }
    }
  }

  lemma AdvanceInFlight(db: Db, p: Process)
    ensures var q := Advance(db, p).1; InFlight(q) ==> InFlight(p) || StepSales(db, p, q) != []
  {
    if p.Process? {
      AdvanceOrder(db, p);
    }
  }

  lemma AdvanceApart(db: Db, p: Process, sales: seq<Sale>, h: History)
    requires SafeCall(db, p, h) && Apart(db, sales)
    ensures var (d, q) := Advance(db, p); Apart(d, sales + StepSales(db, p, q))
  {
    var (d, q) := Advance(db, p);
    AdvanceSafe(db, p, h);
    if StepSales(db, p, q) != [] {
      DeductTakesStock(db, p);
    }
    StepApart(db, p, d, q, sales);
  }

  lemma AdvanceCallClaims(db: Db, p: Process, sales: seq<Sale>)
    requires CallClaimed(sales, p)
    ensures var q := Advance(db, p).1; CallClaimed(sales + StepSales(db, p, q), q)
  {
    AdvanceKeepsProcess(db, p);
    AdvanceInFlight(db, p);
    StepClaims(db, p, Advance(db, p).1, sales);
  }

  lemma AdvanceBillsClaimed(db: Db, p: Process, sales: seq<Sale>, before: set<Id>, h: History)
    requires SafeCall(db, p, h) && CallClaimed(sales, p) && BillsClaimed(db, sales, before, h)
    ensures var (d, q) := Advance(db, p); BillsClaimed(d, sales + StepSales(db, p, q), before, h)
  {
    var (d, q) := Advance(db, p);
    AdvanceKeepsEvidence(db, p, h);
    AdvanceCloses(db, p);
    ClosingClaims(db, p, sales, h);
    ClaimsStay(db, d, sales, StepSales(db, p, q), before, h, h);
  }

  lemma AdvanceClaims(db: Db, p: Process, sales: seq<Sale>, before: set<Id>, h: History)
    requires SafeCall(db, p, h) && Apart(db, sales) && CallClaimed(sales, p) && BillsClaimed(db, sales, before, h)
    ensures var (d, q) := Advance(db, p);
            var after := sales + StepSales(db, p, q);
            Apart(d, after) && CallClaimed(after, q) && BillsClaimed(d, after, before, h)
  {
    AdvanceApart(db, p, sales, h);
    AdvanceCallClaims(db, p, sales);
    AdvanceBillsClaimed(db, p, sales, before, h);
  }

  /** A call closes a bill it has sold. */
  lemma ClosingClaims(db: Db, p: Process, sales: seq<Sale>, h: History)
    requires CallClaimed(sales, p) && Tracks(db, p, h)
    ensures p.Process? && p.stage.Close? ==> Claimed(sales, ClosedRow(db, p.bill, p.call), h)
  {
    if p.Process? && p.stage.Close? {
      var i :| 0 <= i < |sales| && sales[i].bill == p.bill;
      assert IsSaleOf(sales[i], ClosedRow(db, p.bill, p.call), h);
    }
  }

  lemma SalesAppend(a: seq<Sale>, b: seq<Sale>, c: seq<Sale>)
    ensures a + (b + c) == a + b + c && a + [] == a
  {
  }

  /** Where a call's remaining life leaves the tables, and the sales it makes. */
  lemma {:induction false} DriveClaims(db: Db, p: Process, k: nat, sales: seq<Sale>, before: set<Id>, h: History)
    returns (d: Db, more: seq<Sale>)
    requires SafeCall(db, p, h) && Apart(db, sales) && CallClaimed(sales, p) && BillsClaimed(db, sales, before, h)
    ensures d == Drive(db, p, k).0 && more == DriveSales(db, p, k)
    ensures Apart(d, sales + more) && BillsClaimed(d, sales + more, before, h)
    decreases k
  {
    if k == 0 {
      d, more := db, [];
      SalesAppend(sales, [], []);
    } else {
      var (d1, q) := Advance(db, p);
      var first := StepSales(db, p, q);
      AdvanceClaims(db, p, sales, before, h);
      AdvanceSafeCall(db, p, h);
      var rest;
      d, rest := DriveClaims(d1, q, k - 1, sales + first, before, h);
      more := first + rest;
      SalesAppend(sales, first, rest);
    }
  }

  // ---- runs ----

  ghost predicate Inv(w: World, sales: seq<Sale>, before: set<Id>, h: History) {
    && Safe(w, h) && Apart(w.db, sales) && BillsClaimed(w.db, sales, before, h)
    && (forall pid <- w.processes :: CallClaimed(sales, w.processes[pid]))
    && forall e <- w.drafts :: DraftClaimed(sales, w.drafts[e], before, h)
  }

  /** A completed bill that an edit in progress has loaded has a sale. */
  predicate DraftClaimed(sales: seq<Sale>, draft: Bill, before: set<Id>, h: History) {
    draft.status.Closed? && draft.id !in before ==> Claimed(sales, draft, h)
  }

  lemma DraftStaysClaimed(w: World, e: Event, sales: seq<Sale>, before: set<Id>, d: nat, h: History)
    requires Inv(w, sales, before, h) && d in Step(w, e).drafts
    ensures DraftClaimed(sales + EventSales(w, e), Step(w, e).drafts[d], before, Next(w, e, h))
  {
    var draft := Step(w, e).drafts[d];
    DraftRead(w, e, d);
    HistoryGrows(w, e, h);
    assert DraftClaimed(sales, draft, before, h) by {
      if !(d in w.drafts && draft == w.drafts[d]) { assert draft == w.db.bills[e.bill] && draft.id == e.bill; }
    }
    if draft.status.Closed? && draft.id !in before {
      ClaimedMore(sales, EventSales(w, e), draft, draft, h, Next(w, e, h));
    }
  }

  /** Apart from completions, nothing closes a bill. */
  lemma OtherRequestsClose(db: Db, r: Request, h: History)
    requires SafeDb(db, h) && !r.CompleteRequest?
    ensures forall id <- Serve(db, r).bills :: Serve(db, r).bills[id].id == id
    ensures forall id <- Serve(db, r).bills :: Serve(db, r).bills[id].status.Closed? ==>
              id in db.bills && db.bills[id].status.Closed?
  {
    if r.StockRequest? {
      ExecFrame(db, r.stock);
    } else {
      QuietRequest(db, r, h);
    }
  }

  lemma OtherServeClaims(w: World, r: Request, sales: seq<Sale>, before: set<Id>, h: History)
    requires Inv(w, sales, before, h) && !r.CompleteRequest?
    ensures Apart(Serve(w.db, r), sales) && BillsClaimed(Serve(w.db, r), sales, before, Served(w.db, r, h))
  {
    ServeSafe(w.db, r, h);
    ApartStays(w.db, Serve(w.db, r), sales);
    OtherRequestsClose(w.db, r, h);
    ClaimsStay(w.db, Serve(w.db, r), sales, [], before, h, Served(w.db, r, h));
    assert sales + [] == sales;
  }

  lemma CompletionClaims(db: Db, call: CompleteCall, k: nat, sales: seq<Sale>, before: set<Id>, h: History)
    requires SafeDb(db, h) && Apart(db, sales) && BillsClaimed(db, sales, before, h)
    ensures var p, r := Begin(db, call), CompleteRequest(call, k);
            var after := sales + DriveSales(db, p, k);
            Apart(Drive(db, p, k).0, after) && BillsClaimed(Drive(db, p, k).0, after, before, Served(db, r, h))
  {
    var h' := Served(db, CompleteRequest(call, k), h);
    SafeLonger(db, h, h');
    ClaimsStay(db, db, sales, [], before, h, h');
    assert sales + [] == sales;
    var d, more := DriveClaims(db, Begin(db, call), k, sales, before, h');
  }

  lemma ServeClaims(w: World, r: Request, sales: seq<Sale>, before: set<Id>, h: History)
    requires Inv(w, sales, before, h)
    ensures var after := sales + EventSales(w, Serving(r));
            Apart(Serve(w.db, r), after) && BillsClaimed(Serve(w.db, r), after, before, Served(w.db, r, h))
  {
    if r.CompleteRequest? {
      CompletionClaims(w.db, r.call, r.lifetime, sales, before, h);
    } else {
      OtherServeClaims(w, r, sales, before, h);
      assert sales + [] == sales;
    }
  }

  lemma AdvanceOnClaims(db: Db, p: Process, c: Copies, sales: seq<Sale>, before: set<Id>, h: History)
    requires SafeCall(db, p, h) && BothFit(db, c)
    requires Apart(db, sales) && CallClaimed(sales, p) && BillsClaimed(db, sales, before, h)
    ensures var (d, q) := AdvanceOn(db, p, c);
            var after := sales + StepSales(db, p, q);
            Apart(d, after) && CallClaimed(after, q) && BillsClaimed(d, after, before, h)
  {
    var (d, q) := AdvanceOn(db, p, c);
    AdvanceOnFrame(db, p, c);
    if p.Process? && p.stage.Deduct? {
      AdvanceOnSafe(db, p, c, h);
      if StepSales(db, p, q) != [] {
        SavedSaleTakesStock(db, p, c);
      }
      StepApart(db, p, d, q, sales);
      StepClaims(db, p, q, sales);
      ClaimsStay(db, d, sales, StepSales(db, p, q), before, h, h);
    } else {
      AdvanceClaims(db, p, sales, before, h);
    }
  }

  lemma StockEventCloses(w: World, e: Event)
    requires e.CommitsAdjustment? || e.CommitsStock?
    ensures Step(w, e).db.bills == w.db.bills
  {
    if e.CommitsStock? {
      ExecOnFrame(w.db, e.stock, CopiesOf(w, e.tx));
    } else if e.snapshot in w.snapshots {
      ExecFrame(w.db, CommitAdjust(e.op, w.snapshots[e.snapshot]));
    }
  }

  lemma OtherEventCloses(w: World, e: Event)
    requires !TouchesStock(e) && !(e.CommitsEdit? && e.edit in w.drafts)
    ensures Step(w, e).db.bills == w.db.bills
  {
  }

  lemma ClaimStays(sales: seq<Sale>, bill: Bill, bill': Bill, h: History, h': History)
    requires Claimed(sales, bill, h) && Core(bill') == Core(bill) && h.loads <= h'.loads && h.edited <= h'.edited
    requires bill'.id !in h'.edited ==> Fixed(bill') == Fixed(bill)
    ensures Claimed(sales, bill', h')
  {
    ClaimedMore(sales, [], bill, bill', h, h');
    assert sales + [] == sales;
  }

  lemma EditClaims(w: World, e: Event, sales: seq<Sale>, before: set<Id>, h: History)
    requires Inv(w, sales, before, h) && e.CommitsEdit? && e.edit in w.drafts
    ensures BillsClaimed(Step(w, e).db, sales, before, Next(w, e, h))
  {
    var draft, h' := w.drafts[e.edit], Next(w, e, h);
    var bill := Rewritten(draft, e.edited, e.target);
    var bills := w.db.bills[bill.id := bill];
    assert Step(w, e).db.bills == bills && h.loads <= h'.loads && h.edited <= h'.edited && bill.id in h'.edited;
    forall id <- bills | bills[id].status.Closed? && id !in before ensures Claimed(sales, bills[id], h') {
      if id == bill.id {
        ClaimStays(sales, draft, bill, h, h');
      } else {
        ClaimStays(sales, w.db.bills[id], bills[id], h, h');
      }
    }
  }

  lemma QuietEventClaims(w: World, e: Event, sales: seq<Sale>, before: set<Id>, h: History)
    requires Inv(w, sales, before, h) && !e.Serving? && !e.Steps? && !e.StepsOn?
    ensures EventSales(w, e) == [] && Apart(Step(w, e).db, sales)
    ensures BillsClaimed(Step(w, e).db, sales, before, Next(w, e, h))
  {
    StepDbSafe(w, e, h);
    ApartStays(w.db, Step(w, e).db, sales);
    if e.CommitsEdit? && e.edit in w.drafts {
      EditClaims(w, e, sales, before, h);
    } else {
      if TouchesStock(e) {
        StockEventCloses(w, e);
      } else {
        OtherEventCloses(w, e);
      }
      ClaimsStay(w.db, Step(w, e).db, sales, [], before, h, Next(w, e, h));
      assert sales + [] == sales;
    }
  }

  lemma EventClaims(w: World, e: Event, sales: seq<Sale>, before: set<Id>, h: History)
    requires Inv(w, sales, before, h)
    ensures var after := sales + EventSales(w, e);
            Apart(Step(w, e).db, after) && BillsClaimed(Step(w, e).db, after, before, Next(w, e, h))
  {
    if e.Serving? {
      ServeClaims(w, e.request, sales, before, h);
    } else if e.Steps? && e.pid in w.processes {
      AdvanceClaims(w.db, w.processes[e.pid], sales, before, h);
    } else if e.StepsOn? && e.pid in w.processes {
      AdvanceOnClaims(w.db, w.processes[e.pid], CopiesOf(w, e.tx), sales, before, h);
    } else {
      assert sales + [] == sales;
      if !e.Steps? && !e.StepsOn? {
        QuietEventClaims(w, e, sales, before, h);
      }
    }
  }

  lemma SteppedCallClaims(db: Db, p: Process, c: Copies, sales: seq<Sale>)
    requires CallClaimed(sales, p)
    ensures var q := AdvanceOn(db, p, c).1; CallClaimed(sales + StepSales(db, p, q), q)
  {
    AdvanceOnFrame(db, p, c);
    if p.Process? && p.stage.Deduct? {
      StepClaims(db, p, AdvanceOn(db, p, c).1, sales);
    } else {
      AdvanceCallClaims(db, p, sales);
    }
  }

  lemma CallsClaim(w: World, e: Event, sales: seq<Sale>, pid: nat)
    requires (forall i <- w.processes :: CallClaimed(sales, w.processes[i])) && pid in Step(w, e).processes
    ensures CallClaimed(sales + EventSales(w, e), Step(w, e).processes[pid])
  {
    if e.Steps? && e.pid == pid {
      AdvanceCallClaims(w.db, w.processes[pid], sales);
    } else if e.StepsOn? && e.pid == pid {
      SteppedCallClaims(w.db, w.processes[pid], CopiesOf(w, e.tx), sales);
    } else if pid in w.processes {
      OtherCall(w, e, pid);
      CallClaimedMore(sales, EventSales(w, e), w.processes[pid]);
    } else {
      NewCall(w, e, pid);
    }
  }

  lemma {:induction false} RunClaims(w: World, es: seq<Event>, sales: seq<Sale>, before: set<Id>, h: History)
    requires Inv(w, sales, before, h)
    ensures Inv(StepAll(w, es), sales + Sales(w, es), before, HistoryAfter(w, es, h))
    decreases |es|
  {
    if es == [] {
      assert sales + [] == sales;
    } else {
      var w1, after := Step(w, es[0]), sales + EventSales(w, es[0]);
      StepSafe(w, es[0], h);
      EventClaims(w, es[0], sales, before, h);
      forall pid <- w1.processes ensures CallClaimed(after, w1.processes[pid]) {
        CallsClaim(w, es[0], sales, pid);
      }
      forall d <- w1.drafts ensures DraftClaimed(after, w1.drafts[d], before, Next(w, es[0], h)) {
        DraftStaysClaimed(w, es[0], sales, before, d, h);
      }
      RunClaims(w1, es[1..], after, before, Next(w, es[0], h));
      SalesAppend(sales, EventSales(w, es[0]), Sales(w1, es[1..]));
    }
  }

  /** Bills that are completed, or that an edit in progress holds as completed. */
  function Completed(w: World): set<Id> {
    (set id | id in w.db.bills && w.db.bills[id].status.Closed?) + (set e | e in w.drafts && w.drafts[e].status.Closed? :: w.drafts[e].id)
  }

  /** Over every interleaving that starts with no sale under way: each bill completed in the run has
      its own stretch of movements, and those of two different bills do not overlap. */
  lemma CompletedBillsDoNotShare(w: World, es: seq<Event>, a: Id, b: Id, h: History) returns (x: Sale, y: Sale)
    requires Safe(w, h) && forall pid <- w.processes :: !InFlight(w.processes[pid])
    requires var end := StepAll(w, es).db.bills;
             a != b && a in end && end[a].status.Closed? && b in end && end[b].status.Closed?
    requires a !in Completed(w) && b !in Completed(w)
    ensures var end, after := StepAll(w, es).db, HistoryAfter(w, es, h);
            && IsSaleOf(x, end.bills[a], after) && HasSaleMovements(end, x.bill, x.at)
            && IsSaleOf(y, end.bills[b], after) && HasSaleMovements(end, y.bill, y.at)
            && x.bill.id == a && y.bill.id == b
            && (SamePool(x, y) ==> x.at + |x.bill.items| <= y.at || y.at + |y.bill.items| <= x.at)
  {
    RunClaims(w, es, [], Completed(w), h);
    var end, sales := StepAll(w, es).db, Sales(w, es);
    assert [] + sales == sales;
    assert end.bills[a].id == a && end.bills[b].id == b;
    x, y := TwoSales(end, sales, end.bills[a], end.bills[b], HistoryAfter(w, es, h));
  }

  lemma TwoSales(db: Db, sales: seq<Sale>, a: Bill, b: Bill, h: History) returns (x: Sale, y: Sale)
    requires Apart(db, sales) && Claimed(sales, a, h) && Claimed(sales, b, h) && a.id != b.id
    ensures IsSaleOf(x, a, h) && HasSaleMovements(db, x.bill, x.at)
    ensures IsSaleOf(y, b, h) && HasSaleMovements(db, y.bill, y.at)
    ensures SamePool(x, y) ==> x.at + |x.bill.items| <= y.at || y.at + |y.bill.items| <= x.at
  {
    var i :| 0 <= i < |sales| && IsSaleOf(sales[i], a, h);
    var j :| 0 <= j < |sales| && IsSaleOf(sales[j], b, h);
    x, y := sales[i], sales[j];
  }
}
