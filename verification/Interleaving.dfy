/** Any number of `completeBill` calls and stock transactions in progress at once, each stopping for
    good wherever it crashes, among all other requests and among adjustments and approval decisions
    that read before they commit. A stock transaction reads rows one by one and commits later on what
    it has read. */
module Interleaving {
  import opened Wrappers
  import opened StockPool
  import opened Ledger
  import opened Tables
  import opened StockOrchestration
  import opened StockProofs
  import opened BillCompletion
  import opened BillProofs
  import opened Runs
  import opened Isolation

  /** An approval request as a decision in progress has read it. */
  datatype Look = Look(index: nat, copy: Approval)

  /** `drafts` are the copies that edits and deletions of bills in progress have loaded. */
  datatype World = World(db: Db, processes: map<nat, Process>, snapshots: map<nat, int>, copies: map<nat, Copies>,
                         looks: map<nat, Look>, drafts: map<nat, Bill>)

  /** `Steps` runs a step on its own; in `StepsOn` its stock transaction has read in the course of `tx`. */
  datatype Event =
    | Serving(request: Request)
    | Begins(pid: nat, call: CompleteCall)
    | Steps(pid: nat)
    | Crashes(pid: nat)
    | ReadsQuantity(snapshot: nat, row: RowId)
    | CommitsAdjustment(snapshot: nat, op: AdjustOperation)
    | ReadsFirst(tx: nat, published: bool, row: RowId)
    | ReadsRow(tx: nat, published: bool, row: RowId)
    | CommitsStock(tx: nat, stock: StockCall)
    | StepsOn(pid: nat, tx: nat)
    | ReadsApproval(decision: nat, approval: nat)
    | CommitsDecision(decision: nat, approves: bool)
    | ReadsBill(edit: nat, bill: Id)
    | CommitsEdit(edit: nat, edited: Bill, target: Option<BillStatus>)
    | CommitsDeletion(edit: nat)

  /** A decision saves the copy it has read, if that was pending; nothing else is checked again. */
  function Decided(db: Db, look: Look, approves: bool): Db {
    if look.index < |db.approvals| && look.copy.status.Requested?
    then db.(approvals := db.approvals[look.index := look.copy.(status := if approves then Approved else Rejected)])
    else db
  }

  /** An edit saves the bill with the status it has read, a transition or a rejection with its target. */
  function Rewritten(draft: Bill, edited: Bill, target: Option<BillStatus>): Bill {
    Edited(draft, edited).(status := if target.Some? && !target.value.Closed? then target.value else draft.status,
                           paymentMethod := if target.Some? then edited.paymentMethod else draft.paymentMethod)
  }

  function CopiesOf(w: World, tx: nat): Copies {
    if tx in w.copies then w.copies[tx] else NO_COPIES
  }

  function ReadRow(db: Db, c: Copies, published: bool, row: RowId): Copies {
    if published && row in db.published.rows then c.(published := c.published[row := db.published.rows[row]])
    else if !published && row in db.unpublished.rows then c.(unpublished := c.unpublished[row := db.unpublished.rows[row]])
    else c
  }

  function ReadFirst(db: Db, c: Copies, published: bool, row: RowId): Copies {
    if published && row in db.published.rows
    then c.(firstPublished := c.firstPublished[row := db.published.rows[row].onHand])
    else if !published && row in db.unpublished.rows
    then c.(firstUnpublished := c.firstUnpublished[row := db.unpublished.rows[row].onHand])
    else c
  }

  function Step(w: World, e: Event): World {
    match e
    case Serving(r) => w.(db := Serve(w.db, r))
    case Begins(pid, call) => if pid in w.processes then w else w.(processes := w.processes[pid := Begin(w.db, call)])
    case Steps(pid) =>
      if pid !in w.processes then w else
      var (db, p) := Advance(w.db, w.processes[pid]);
      w.(db := db, processes := w.processes[pid := p])
    case Crashes(pid) => w.(processes := w.processes - {pid})
    case ReadsQuantity(s, row) =>
      if row in w.db.published.rows then w.(snapshots := w.snapshots[s := w.db.published.rows[row].onHand]) else w
    case CommitsAdjustment(s, op) =>
      if s in w.snapshots then w.(db := Exec(w.db, CommitAdjust(op, w.snapshots[s]))) else w
    case ReadsFirst(tx, published, row) => w.(copies := w.copies[tx := ReadFirst(w.db, CopiesOf(w, tx), published, row)])
    case ReadsRow(tx, published, row) => w.(copies := w.copies[tx := ReadRow(w.db, CopiesOf(w, tx), published, row)])
    case CommitsStock(tx, call) => w.(db := ExecOn(w.db, call, CopiesOf(w, tx)), copies := w.copies - {tx})
    case StepsOn(pid, tx) =>
      if pid !in w.processes then w else
      var (db, p) := AdvanceOn(w.db, w.processes[pid], CopiesOf(w, tx));
      w.(db := db, processes := w.processes[pid := p], copies := w.copies - {tx})
    case ReadsApproval(d, i) =>
      if i < |w.db.approvals| then w.(looks := w.looks[d := Look(i, w.db.approvals[i])]) else w
    case CommitsDecision(d, approves) =>
      if d in w.looks then w.(db := Decided(w.db, w.looks[d], approves), looks := w.looks - {d}) else w
    case ReadsBill(e, id) =>
      if id in w.db.bills && id !in w.db.deletedBills then w.(drafts := w.drafts[e := w.db.bills[id]]) else w
    case CommitsEdit(e, edited, target) =>
      if e !in w.drafts then w else
      var bill := Rewritten(w.drafts[e], edited, target);
      w.(db := w.db.(bills := w.db.bills[bill.id := bill]), drafts := w.drafts - {e})
    case CommitsDeletion(e) =>
      if e in w.drafts && !w.drafts[e].status.Closed? && !w.drafts[e].status.Voided?
      then w.(db := w.db.(deletedBills := w.db.deletedBills + {w.drafts[e].id}), drafts := w.drafts - {e}) else w
  }

  /** All events but reads, beginnings and crashes, which leave the tables alone. */
  predicate EventWrites(e: Event) {
    !e.Begins? && !e.Crashes? && !e.ReadsQuantity? && !e.ReadsFirst? && !e.ReadsRow? && !e.ReadsApproval? && !e.ReadsBill?
  }

  lemma ReadsLeaveTables(w: World, e: Event)
    requires !EventWrites(e)
    ensures Step(w, e).db == w.db
  {
  }

  /** An event steps one call at most. */
  lemma OtherCall(w: World, e: Event, pid: nat)
    requires pid in w.processes && pid in Step(w, e).processes && !(e.Steps? && e.pid == pid) && !(e.StepsOn? && e.pid == pid)
    ensures Step(w, e).processes[pid] == w.processes[pid]
  {
  }

  lemma NewCall(w: World, e: Event, pid: nat)
    requires pid !in w.processes && pid in Step(w, e).processes
    ensures e.Begins? && e.pid == pid && Step(w, e).processes[pid] == Begin(w.db, e.call)
  {
  }

  /** A transaction's reads change by its own reads only, and so on. */
  lemma OtherCopies(w: World, e: Event, tx: nat)
    requires tx in Step(w, e).copies && !(e.ReadsRow? && e.tx == tx) && !(e.ReadsFirst? && e.tx == tx)
    ensures tx in w.copies && Step(w, e).copies[tx] == w.copies[tx]
  {
  }

  lemma OtherLook(w: World, e: Event, d: nat)
    requires d in Step(w, e).looks && !(e.ReadsApproval? && e.decision == d && e.approval < |w.db.approvals|)
    ensures d in w.looks && Step(w, e).looks[d] == w.looks[d]
  {
  }

  lemma DraftRead(w: World, e: Event, d: nat)
    requires d in Step(w, e).drafts
    ensures (d in w.drafts && Step(w, e).drafts[d] == w.drafts[d])
         || (e.ReadsBill? && e.bill in w.db.bills && Step(w, e).drafts[d] == w.db.bills[e.bill])
  {
  }

  function StepAll(w: World, es: seq<Event>): World
    decreases |es|
  {
    if es == [] then w else StepAll(Step(w, es[0]), es[1..])
  }

  // ---- ledger replay over every interleaving ----

  lemma BothTrans(a: Db, b: Db, c: Db, chained: bool)
    requires BothExplained(a, b, chained) && BothExplained(b, c, chained)
    ensures BothExplained(a, c, chained)
  {
    GrowTrans(a, b, c);
    ExplainedTrans(a.published, b.published, c.published, chained);
    ExplainedTrans(a.unpublished, b.unpublished, c.unpublished, true);
  }

  lemma GrowTrans(a: Db, b: Db, c: Db)
    requires BothGrow(a, b) && BothGrow(b, c)
    ensures BothGrow(a, c)
  {
    GrowsTrans(a.published, b.published, c.published);
    GrowsTrans(a.unpublished, b.unpublished, c.unpublished);
  }

  lemma BothRefl(a: Db, b: Db)
    requires PoolsWellFormed(a) && b.published == a.published && b.unpublished == a.unpublished
    ensures BothExplained(a, b, true)
  {
    GrowsRefl(a.published);
    GrowsRefl(a.unpublished);
  }

  /** The sale's part of `AdvanceExplained`. */
  lemma DeductExplained(db: Db, p: Process)
    requires PoolsWellFormed(db) && p.Process? && p.stage.Deduct?
    ensures BothExplained(db, Advance(db, p).0, true)
  {
    BothRefl(db, db);
    LinesSucceedIffCovered(SalePool(db, p.bill), p.bill, p.bill.items, p.call.performedBy);
    var r := LinesTx(SalePool(db, p.bill), p.bill, p.bill.items, p.call.performedBy);
    if r.Success? {
      SaleExplained(db, p.bill, r.value);
    }
  }

  lemma SaleExplained(db: Db, bill: Bill, q: Pool)
    requires PoolsWellFormed(db) && Grows(SalePool(db, bill), q) && Explained(SalePool(db, bill), q, true)
    ensures BothExplained(db, WithSalePool(db, bill, q), true)
  {
    GrowsRefl(db.published);
    GrowsRefl(db.unpublished);
  }

  lemma AdvanceExplained(db: Db, p: Process)
    requires PoolsWellFormed(db)
    ensures BothExplained(db, Advance(db, p).0, true)
  {
    if p.Process? && p.stage.Deduct? {
      DeductExplained(db, p);
    } else {
      AdvanceFrame(db, p);
      BothRefl(db, Advance(db, p).0);
    }
  }

  lemma {:induction false} DriveExplained(db: Db, p: Process, k: nat)
    requires PoolsWellFormed(db)
    ensures BothExplained(db, Drive(db, p, k).0, true)
    decreases k
  {
    if k == 0 {
      BothRefl(db, db);
    } else {
      var (d, q) := Advance(db, p);
      AdvanceExplained(db, p);
      DriveExplained(d, q, k - 1);
      BothTrans(db, d, Drive(d, q, k - 1).0, true);
    }
  }

  predicate StockSnapshotsCurrent(db: Db, r: Request) {
    r.StockRequest? ==> SnapshotCurrent(db, r.stock)
  }

  lemma ServeExplained(db: Db, r: Request)
    requires PoolsWellFormed(db)
    ensures BothExplained(db, Serve(db, r), StockSnapshotsCurrent(db, r))
  {
    match r
    case StockRequest(call) => ExecExplained(db, call);
    case CompleteRequest(call, k) => DriveExplained(db, Begin(db, call), k);
    case _ => BothRefl(db, Serve(db, r));
  }

  // ---- commits on what was read ----

  /** The tables a commit on `copies` arrives at, before it saves what it wrote. */
  ghost predicate Arrives(db: Db, copies: Copies, call: StockCall) {
    Tx(Seen(db, copies), call).Success? && !Refuses(call, copies)
  }

  ghost predicate SaleArrives(db: Db, p: Process, copies: Copies) {
    p.Process? && p.stage.Deduct?
    && LinesTx(SalePool(Seen(db, copies), p.bill), p.bill, p.bill.items, p.call.performedBy).Success?
  }

  /** The tables after the sale, as its transaction sees them. */
  function SaleSeen(db: Db, p: Process, copies: Copies): Db
    requires SaleArrives(db, p, copies)
  {
    var seen := Seen(db, copies);
    WithSalePool(seen, p.bill, LinesTx(SalePool(seen, p.bill), p.bill, p.bill.items, p.call.performedBy).value)
  }

  lemma SaleSeenExplained(db: Db, p: Process, copies: Copies)
    requires PoolsWellFormed(db) && BothFit(db, copies) && SaleArrives(db, p, copies)
    ensures BothExplained(Seen(db, copies), SaleSeen(db, p, copies), true)
    ensures Appends(db, SaleSeen(db, p, copies))
  {
    SeenGrows(db, copies);
    DeductExplained(Seen(db, copies), p);
  }

  lemma SalePoolAppends(db: Db, copies: Copies, bill: Bill, q: Pool)
    requires SalePool(Seen(db, copies), bill).movements <= q.movements
    ensures Appends(db, WithSalePool(Seen(db, copies), bill, q))
  {
  }

  lemma SaleAppends(db: Db, p: Process, copies: Copies)
    requires SaleArrives(db, p, copies)
    ensures Appends(db, SaleSeen(db, p, copies))
  {
    var seen := SalePool(Seen(db, copies), p.bill);
    var r := LinesTx(seen, p.bill, p.bill.items, p.call.performedBy);
    LinesAppend(seen, p.bill, p.bill.items, p.call.performedBy);
    SalePoolAppends(db, copies, p.bill, r.value);
  }

  lemma SaleSaves(db: Db, p: Process, copies: Copies)
    requires SaleArrives(db, p, copies)
    ensures Appends(db, SaleSeen(db, p, copies))
    ensures AdvanceOn(db, p, copies)
         == (Stamped(db, SavedDb(db, SaleSeen(db, p, copies)), copies), p.(stage := RecordCommission))
  {
    SaleAppends(db, p, copies);
  }

  /** The rows the event's transaction wrote were read at the quantities still stored. */
  ghost predicate ReadsCurrent(w: World, e: Event) {
    match e
    case CommitsStock(tx, call) =>
      var c := CopiesOf(w, tx);
      Arrives(w.db, c, call) ==> BothCurrent(w.db, c, Tx(Seen(w.db, c), call).value)
    case StepsOn(pid, tx) =>
      var c := CopiesOf(w, tx);
      pid in w.processes && SaleArrives(w.db, w.processes[pid], c) ==>
        BothCurrent(w.db, c, SaleSeen(w.db, w.processes[pid], c))
    case _ => true
  }

  ghost predicate CopiesFit(w: World) {
    forall tx <- w.copies :: BothFit(w.db, w.copies[tx])
  }

  /** In one of the pools, a transaction has twice read what is stored of the rows it writes. */
  ghost predicate ReadsExact(db: Db, c: Copies, d: Db, firsts: Copies, published: bool) {
    ExactIn(db, c, d, published) && FirstsCurrentIn(db, d, firsts, published)
  }

  /** In one of the pools the event commits no adjustment on an outdated snapshot, no row on an outdated
      copy and no movement on an outdated first read. */
  ghost predicate SnapshotFresh(w: World, e: Event, published: bool) {
    match e
    case Serving(r) => published ==> StockSnapshotsCurrent(w.db, r)
    case CommitsAdjustment(s, op) =>
      published && s in w.snapshots ==> SnapshotCurrent(w.db, CommitAdjust(op, w.snapshots[s]))
    case CommitsStock(tx, call) =>
      var c := CopiesOf(w, tx);
      (published ==> SnapshotCurrent(Seen(w.db, c), call)) &&
      (Arrives(w.db, c, call) ==> ReadsExact(w.db, c, Tx(Seen(w.db, c), call).value, FirstsOf(call, c), published))
    case StepsOn(pid, tx) =>
      var c := CopiesOf(w, tx);
      pid in w.processes && SaleArrives(w.db, w.processes[pid], c) ==>
        ReadsExact(w.db, c, SaleSeen(w.db, w.processes[pid], c), c, published)
    case _ => true
  }

  /** Where a commit arrives, and what it saves of that. */
  lemma CommitArrives(db: Db, call: StockCall, c: Copies) returns (d: Db)
    requires PoolsWellFormed(db) && BothFit(db, c) && Arrives(db, c, call)
    ensures Tx(Seen(db, c), call) == Success(d) && BothExplained(Seen(db, c), d, SnapshotCurrent(Seen(db, c), call))
    ensures Appends(db, d) && ExecOn(db, call, c) == Stamped(db, SavedDb(db, d), FirstsOf(call, c))
  {
    d := Tx(Seen(db, c), call).value;
    SeenGrows(db, c);
    ExecExplained(Seen(db, c), call);
  }

  lemma CommitGrows(db: Db, call: StockCall, c: Copies)
    requires PoolsWellFormed(db) && BothFit(db, c)
    ensures BothGrow(db, ExecOn(db, call, c))
  {
    if Arrives(db, c, call) {
      var d := CommitArrives(db, call, c);
      SavedDbGrows(db, c, d);
      StampedGrows(db, SavedDb(db, d), FirstsOf(call, c));
    } else {
      BothRefl(db, db);
    }
  }

  lemma SaleGrows(db: Db, p: Process, c: Copies)
    requires PoolsWellFormed(db) && BothFit(db, c) && SaleArrives(db, p, c)
    ensures BothGrow(db, AdvanceOn(db, p, c).0)
  {
    SaleSeenExplained(db, p, c);
    SaleSaves(db, p, c);
    SavedDbGrows(db, c, SaleSeen(db, p, c));
    StampedGrows(db, SavedDb(db, SaleSeen(db, p, c)), c);
  }

  lemma AdvanceOnGrows(db: Db, p: Process, c: Copies)
    requires PoolsWellFormed(db) && BothFit(db, c)
    ensures BothGrow(db, AdvanceOn(db, p, c).0)
  {
    if SaleArrives(db, p, c) {
      SaleGrows(db, p, c);
    } else if p.Process? && p.stage.Deduct? {
      BothRefl(db, db);
    } else {
      AdvanceExplained(db, p);
    }
  }

  /** Beginnings, crashes, reads and decisions leave the stock tables alone. */
  predicate TouchesStock(e: Event) {
    e.Serving? || e.Steps? || e.CommitsAdjustment? || e.CommitsStock? || e.StepsOn?
  }

  lemma OthersKeepStock(w: World, e: Event)
    requires PoolsWellFormed(w.db) && !TouchesStock(e)
    ensures BothExplained(w.db, Step(w, e).db, true)
  {
    BothRefl(w.db, Step(w, e).db);
  }

  lemma StepGrows(w: World, e: Event)
    requires PoolsWellFormed(w.db) && CopiesFit(w)
    ensures BothGrow(w.db, Step(w, e).db)
  {
    BothRefl(w.db, w.db);
    match e
    case Serving(r) => ServeExplained(w.db, r);
    case Steps(pid) => if pid in w.processes { AdvanceExplained(w.db, w.processes[pid]); }
    case CommitsAdjustment(s, op) => if s in w.snapshots { ExecExplained(w.db, CommitAdjust(op, w.snapshots[s])); }
    case CommitsStock(tx, call) => CommitGrows(w.db, call, CopiesOf(w, tx));
    case StepsOn(pid, tx) => if pid in w.processes { AdvanceOnGrows(w.db, w.processes[pid], CopiesOf(w, tx)); }
    case _ => OthersKeepStock(w, e);
  }

  lemma FitStays(a: Db, b: Db, c: Copies)
    requires BothFit(a, c) && BothGrow(a, b) && PoolsWellFormed(a)
    ensures BothFit(b, c)
  {
    FitStaysIn(a.published, b.published, c.published);
    FitStaysIn(a.unpublished, b.unpublished, c.unpublished);
  }

  lemma FitStaysIn(p: Pool, q: Pool, copies: map<RowId, Row>)
    requires WellFormed(p) && Fit(p, copies) && Grows(p, q)
    ensures Fit(q, copies)
  {
    forall id <- copies ensures id in q.rows && copies[id].key == q.rows[id].key {
      assert KeyOf(q, id) == KeyOf(p, id);
    }
  }

  lemma CopyFits(w: World, e: Event, tx: nat)
    requires PoolsWellFormed(w.db) && CopiesFit(w) && BothGrow(w.db, Step(w, e).db) && tx in Step(w, e).copies
    ensures BothFit(Step(w, e).db, Step(w, e).copies[tx])
  {
    if e.ReadsRow? && e.tx == tx {
      ReadFits(w.db, CopiesOf(w, tx), e.published, e.row);
    } else if e.ReadsFirst? && e.tx == tx {
      assert BothFit(w.db, CopiesOf(w, tx));
    } else {
      OtherCopies(w, e, tx);
      FitStays(w.db, Step(w, e).db, w.copies[tx]);
    }
  }

  lemma ReadFits(db: Db, c: Copies, published: bool, row: RowId)
    requires BothFit(db, c)
    ensures BothFit(db, ReadRow(db, c, published, row))
  {
  }

  /** Copies keep fitting: rows are never dropped and never change their key. */
  lemma StepFits(w: World, e: Event)
    requires PoolsWellFormed(w.db) && CopiesFit(w)
    ensures PoolsWellFormed(Step(w, e).db) && CopiesFit(Step(w, e))
  {
    StepGrows(w, e);
    forall tx <- Step(w, e).copies ensures BothFit(Step(w, e).db, Step(w, e).copies[tx]) {
      CopyFits(w, e, tx);
    }
  }

  lemma CommitReplaysIff(db: Db, call: StockCall, c: Copies)
    requires PoolsWellFormed(db) && BothFit(db, c) && Arrives(db, c, call)
    ensures BothReplay(db, ExecOn(db, call, c)) <==> BothCurrent(db, c, Tx(Seen(db, c), call).value)
  {
    var d := CommitArrives(db, call, c);
    SavedDbReplaysIff(db, c, d, FirstsOf(call, c));
  }

  lemma SaleReplaysIff(db: Db, p: Process, c: Copies)
    requires PoolsWellFormed(db) && BothFit(db, c) && SaleArrives(db, p, c)
    ensures Appends(db, SaleSeen(db, p, c))
    ensures BothReplay(db, AdvanceOn(db, p, c).0) <==> BothCurrent(db, c, SaleSeen(db, p, c))
  {
    SaleSeenExplained(db, p, c);
    SaleSaves(db, p, c);
    SavedDbReplaysIff(db, c, SaleSeen(db, p, c), c);
  }

  /** One event keeps replay exactly when the rows it wrote were current. */
  lemma StepReplaysIff(w: World, e: Event)
    requires PoolsWellFormed(w.db) && CopiesFit(w)
    ensures BothReplay(w.db, Step(w, e).db) <==> ReadsCurrent(w, e)
  {
    if e.CommitsStock? || e.StepsOn? {
      CommittingStep(w, e);
    } else {
      SerialStep(w, e);
    }
  }

  lemma SerialStep(w: World, e: Event)
    requires PoolsWellFormed(w.db) && !e.CommitsStock? && !e.StepsOn?
    ensures BothReplay(w.db, Step(w, e).db)
  {
    BothRefl(w.db, w.db);
    match e
    case Serving(r) => ServeExplained(w.db, r);
    case Steps(pid) => if pid in w.processes { AdvanceExplained(w.db, w.processes[pid]); }
    case CommitsAdjustment(s, op) => if s in w.snapshots { ExecExplained(w.db, CommitAdjust(op, w.snapshots[s])); }
    case _ => OthersKeepStock(w, e);
  }

  lemma CommittingStep(w: World, e: Event)
    requires PoolsWellFormed(w.db) && CopiesFit(w) && (e.CommitsStock? || e.StepsOn?)
    ensures BothReplay(w.db, Step(w, e).db) <==> ReadsCurrent(w, e)
  {
    BothRefl(w.db, w.db);
    if e.CommitsStock? {
      if Arrives(w.db, CopiesOf(w, e.tx), e.stock) { CommitReplaysIff(w.db, e.stock, CopiesOf(w, e.tx)); }
    } else if e.pid in w.processes {
      StepOnReplaysIff(w.db, w.processes[e.pid], CopiesOf(w, e.tx));
    }
  }

  lemma StepOnReplaysIff(db: Db, p: Process, c: Copies)
    requires PoolsWellFormed(db) && BothFit(db, c)
    ensures SaleArrives(db, p, c) ==> Appends(db, SaleSeen(db, p, c))
    ensures BothReplay(db, AdvanceOn(db, p, c).0) <==>
            (SaleArrives(db, p, c) ==> BothCurrent(db, c, SaleSeen(db, p, c)))
  {
    if SaleArrives(db, p, c) {
      SaleReplaysIff(db, p, c);
    } else if p.Process? && p.stage.Deduct? {
      BothRefl(db, db);
    } else {
      AdvanceExplained(db, p);
    }
  }

  ghost predicate AllCurrent(w: World, es: seq<Event>)
    decreases |es|
  {
    es == [] || (ReadsCurrent(w, es[0]) && AllCurrent(Step(w, es[0]), es[1..]))
  }

  ghost predicate ReplaysThroughout(w: World, es: seq<Event>)
    decreases |es|
  {
    es == [] || (BothReplay(w.db, Step(w, es[0]).db) && ReplaysThroughout(Step(w, es[0]), es[1..]))
  }

  /** Ledger replay: over every interleaving, crashes, rollbacks, late adjustments and overlapping stock
      transactions included, every step leaves the quantities of every row equal to the replay of
      its movements exactly when no transaction commits a row it has read at outdated quantities. */
  lemma {:induction false} ReplaysIffCurrent(w: World, es: seq<Event>)
    requires PoolsWellFormed(w.db) && CopiesFit(w)
    ensures ReplaysThroughout(w, es) <==> AllCurrent(w, es)
    decreases |es|
  {
    if es != [] {
      StepFits(w, es[0]);
      StepReplaysIff(w, es[0]);
      ReplaysIffCurrent(Step(w, es[0]), es[1..]);
    }
  }

  ghost predicate AllFresh(w: World, es: seq<Event>, published: bool)
    decreases |es|
  {
    es == [] || (SnapshotFresh(w, es[0], published) && AllFresh(Step(w, es[0]), es[1..], published))
  }

  lemma CommitChained(db: Db, call: StockCall, c: Copies, published: bool)
    requires PoolsWellFormed(db) && BothFit(db, c) && Arrives(db, c, call)
    requires published ==> SnapshotCurrent(Seen(db, c), call)
    requires ReadsExact(db, c, Tx(Seen(db, c), call).value, FirstsOf(call, c), published)
    ensures Explained(PoolOf(db, published), PoolOf(ExecOn(db, call, c), published), true)
  {
    var d := CommitArrives(db, call, c);
    if ReadsTwice(call) {
      FirstsOnHand(Seen(db, c), call);
    }
    StampedDbChained(db, c, d, FirstsOf(call, c), published);
  }

  lemma LinesOnHand(pool: Pool, bill: Bill, user: Id)
    requires WellFormed(pool) && LinesTx(pool, bill, bill.items, user).Success?
    ensures var q := LinesTx(pool, bill, bill.items, user).value; pool.movements <= q.movements && OnHandOnly(Added(pool, q))
  {
    LinesSucceedIffCovered(pool, bill, bill.items, user);
    var q := LinesTx(pool, bill, bill.items, user).value;
    forall m <- Added(pool, q) ensures m.kind.StockOut? {
      var j :| 0 <= j < |Added(pool, q)| && Added(pool, q)[j] == m;
      assert IsSaleMovement(pool, q.movements[|pool.movements| + j], bill, bill.items[j]);
    }
  }

  lemma SaleOnHand(db: Db, p: Process)
    requires PoolsWellFormed(db) && p.Process? && p.stage.Deduct?
    requires LinesTx(SalePool(db, p.bill), p.bill, p.bill.items, p.call.performedBy).Success?
    ensures var d := WithSalePool(db, p.bill, LinesTx(SalePool(db, p.bill), p.bill, p.bill.items, p.call.performedBy).value);
            && Appends(db, d)
            && OnHandOnly(Added(db.published, d.published)) && OnHandOnly(Added(db.unpublished, d.unpublished))
  {
    LinesOnHand(SalePool(db, p.bill), p.bill, p.call.performedBy);
  }

  lemma SaleChained(db: Db, p: Process, c: Copies, published: bool)
    requires PoolsWellFormed(db) && BothFit(db, c) && SaleArrives(db, p, c)
    requires ReadsExact(db, c, SaleSeen(db, p, c), c, published)
    ensures Explained(PoolOf(db, published), PoolOf(AdvanceOn(db, p, c).0, published), true)
  {
    SaleSeenExplained(db, p, c);
    SaleSaves(db, p, c);
    SeenGrows(db, c);
    SaleOnHand(Seen(db, c), p);
    StampedDbChained(db, c, SaleSeen(db, p, c), c, published);
  }

  lemma StepOnChained(db: Db, p: Process, c: Copies, published: bool)
    requires PoolsWellFormed(db) && BothFit(db, c)
    requires SaleArrives(db, p, c) ==> ReadsExact(db, c, SaleSeen(db, p, c), c, published)
    ensures Explained(PoolOf(db, published), PoolOf(AdvanceOn(db, p, c).0, published), true)
  {
    if SaleArrives(db, p, c) {
      SaleChained(db, p, c, published);
    } else if p.Process? && p.stage.Deduct? {
      BothRefl(db, db);
    } else {
      AdvanceExplained(db, p);
    }
  }

  lemma StepChained(w: World, e: Event, published: bool)
    requires PoolsWellFormed(w.db) && CopiesFit(w) && SnapshotFresh(w, e, published)
    ensures Explained(PoolOf(w.db, published), PoolOf(Step(w, e).db, published), true)
  {
    BothRefl(w.db, w.db);
    match e
    case Serving(r) => ServeExplained(w.db, r);
    case Steps(pid) => if pid in w.processes { AdvanceExplained(w.db, w.processes[pid]); }
    case CommitsAdjustment(s, op) => if s in w.snapshots { ExecExplained(w.db, CommitAdjust(op, w.snapshots[s])); }
    case CommitsStock(tx, call) =>
      if Arrives(w.db, CopiesOf(w, tx), call) {
        CommitChained(w.db, call, CopiesOf(w, tx), published);
      }
    case StepsOn(pid, tx) =>
      if pid in w.processes {
        StepOnChained(w.db, w.processes[pid], CopiesOf(w, tx), published);
      }
    case _ => OthersKeepStock(w, e);
  }

  /** From the first state to the last: with only current reads, replay accounts for every quantity of
      both pools; with fresh snapshots as well, a pool's before/after values form an unbroken chain. */
  lemma {:induction false} LedgerReplay(w: World, es: seq<Event>, published: bool)
    requires PoolsWellFormed(w.db) && CopiesFit(w)
    ensures AllCurrent(w, es) ==> BothReplay(w.db, StepAll(w, es).db)
    ensures AllFresh(w, es, published) ==>
              Explained(PoolOf(w.db, published), PoolOf(StepAll(w, es).db, published), true)
    decreases |es|
  {
    if es == [] {
      BothRefl(w.db, w.db);
    } else {
      var w1, end := Step(w, es[0]), StepAll(w, es).db;
      StepFits(w, es[0]);
      LedgerReplay(w1, es[1..], published);
      if AllCurrent(w, es) {
        StepReplaysIff(w, es[0]);
        ExplainedTrans(w.db.published, w1.db.published, end.published, false);
        ExplainedTrans(w.db.unpublished, w1.db.unpublished, end.unpublished, false);
      }
      if AllFresh(w, es, published) {
        StepChained(w, es[0], published);
        ExplainedTrans(PoolOf(w.db, published), PoolOf(w1.db, published), PoolOf(end, published), true);
      }
    }
  }
}
