/** Which stock operations, sales included, leave a reservation without stock behind it. The checks of
    damage, write-off, transfer and sale look at the quantity on hand, reserved or not. */
module Reservations {
  import opened Wrappers
  import opened StockPool
  import opened Ledger
  import opened Tables
  import opened StockOrchestration
  import opened StockProofs
  import opened BillCompletion
  import opened BillProofs
  import opened Runs
  import opened Isolation
  import opened Interleaving
  import opened StockSafety

  /** Every reservation is backed by stock on hand. */
  ghost predicate Backed(p: Pool) {
    forall id <- p.rows :: 0 <= p.rows[id].reserved <= p.rows[id].onHand
  }

  /** What may leave the row without touching its reservations. */
  function Free(p: Pool, id: RowId): int {
    QtyOf(p, id).onHand - QtyOf(p, id).reserved
  }

  // ---- stock calls ----

  /** Damage, write-off and transfers take more than is free, an adjustment sets less than is
      reserved, or a batch leaves one of its sources short in sum. */
  predicate Eats(p: Pool, call: StockCall) {
    match call
    case DamageOut(op) => op.quantity > Free(p, op.inventoryId)
    case WriteOffOut(op) => op.quantity > Free(p, op.inventoryId)
    case Adjust(op) => op.absolute < QtyOf(p, op.inventoryId).reserved
    case CommitAdjust(op, _) => op.absolute < QtyOf(p, op.inventoryId).reserved
    case Transfer(t) => DestinationId(p, t) != t.source && t.quantity > Free(p, t.source)
    case CompleteBatch(_, inputs) => exists t <- inputs :: Free(p, t.source) + SumDelta(p, inputs, t.source) < 0
    case _ => false
  }

  lemma SinglePostingKeepsIff(db: Db, call: StockCall, posting: Posting)
    requires PostingOf(call) == Some(posting) && Tx(db, call).Success?
    requires QuantitiesNonNegative(call) && Backed(db.published)
    ensures Backed(Tx(db, call).value.published) <==> !Eats(db.published, call)
  {
    var q, id := Tx(db, call).value.published, posting.row;
    CallPostsIffHeadroom(db, call, posting);
    assert q.rows == db.published.rows[id := q.rows[id]];
    if Eats(db.published, call) {
      assert q.rows[id].reserved > q.rows[id].onHand;
    }
  }

  lemma TransferKeepsIff(p: Pool, t: TransferOperation)
    requires WellFormed(p) && TransferTx(p, t).Success? && t.quantity >= 0 && Backed(p)
    ensures Backed(TransferTx(p, t).value) <==> DestinationId(p, t) == t.source || t.quantity <= Free(p, t.source)
  {
    var q := TransferTx(p, t).value;
    TransferEffect(p, t);
    TransferSplit(p, t);
    assert t.source in q.rows && QtyOf(q, t.source) == Qty(q.rows[t.source].onHand, q.rows[t.source].reserved);
    if DestinationId(p, t) == t.source || t.quantity <= Free(p, t.source) {
      forall id <- q.rows ensures 0 <= q.rows[id].reserved <= q.rows[id].onHand {
        assert QtyOf(q, id) == Qty(QtyOf(p, id).onHand + Delta(p, t, id), QtyOf(p, id).reserved);
      }
    }
  }

  lemma {:induction false} SumDeltaWithoutSource(p: Pool, ts: seq<TransferOperation>, id: RowId)
    requires forall t <- ts :: t.quantity >= 0 && t.source != id
    ensures SumDelta(p, ts, id) >= 0
    decreases |ts|
  {
    if ts != [] {
      SumDeltaWithoutSource(p, ts[..|ts| - 1], id);
    }
  }

  lemma SourcesKnown(p: Pool, ts: seq<TransferOperation>, t: TransferOperation)
    requires Covered(p, ts) && t in ts
    ensures t.source in Known(p, ts)
  {
    var i :| 0 <= i < |ts| && ts[i] == t;
    assert ItemCovered(p, ts, i);
    assert forall u :: u in ts[..i + 1] ==> u in ts;
  }

  lemma BatchKeepsIff(p: Pool, ts: seq<TransferOperation>)
    requires WellFormed(p) && BatchTx(p, ts).Success? && Backed(p) && forall t <- ts :: t.quantity >= 0
    ensures Backed(BatchTx(p, ts).value) <==> forall t <- ts :: Free(p, t.source) + SumDelta(p, ts, t.source) >= 0
  {
    var q := BatchTx(p, ts).value;
    BatchSucceedsIffCovered(p, ts);
    assert forall id :: QtyOf(q, id) == Qty(QtyOf(p, id).onHand + SumDelta(p, ts, id), QtyOf(p, id).reserved);
    if Backed(q) {
      forall t <- ts ensures Free(p, t.source) + SumDelta(p, ts, t.source) >= 0 {
        SourcesKnown(p, ts, t);
        assert QtyOf(q, t.source) == Qty(q.rows[t.source].onHand, q.rows[t.source].reserved);
      }
    }
    if forall t <- ts :: Free(p, t.source) + SumDelta(p, ts, t.source) >= 0 {
      forall id <- q.rows ensures 0 <= q.rows[id].reserved <= q.rows[id].onHand {
        assert QtyOf(q, id) == Qty(q.rows[id].onHand, q.rows[id].reserved);
        if forall t <- ts :: t.source != id {
          SumDeltaWithoutSource(p, ts, id);
        }
      }
    }
  }

  /** Every stock call, committed or rolled back: reservations stay backed exactly unless it goes
      through and eats one. */
  lemma ReservationsKeptIff(db: Db, call: StockCall)
    requires WellFormed(db.published) && QuantitiesNonNegative(call) && Backed(db.published)
    ensures Backed(Exec(db, call).published) <==> !(Tx(db, call).Success? && Eats(db.published, call))
  {
    if Tx(db, call).Success? {
      match call
      case Transfer(t) => TransferKeepsIff(db.published, t);
      case CompleteBatch(_, inputs) => BatchKeepsIff(db.published, inputs);
      case AddUnpublished(_) =>
      case Publish(_) => PublishKeeps(db, call);
      case _ => SinglePostingKeepsIff(db, call, PostingOf(call).value);
    }
  }

  lemma PublishKeeps(db: Db, call: StockCall)
    requires call.Publish? && QuantitiesNonNegative(call) && Tx(db, call).Success? && Backed(db.published)
    ensures Backed(Exec(db, call).published)
  {
  }

  // ---- sales ----

  /** An official sale that goes through and takes more of a product than is free. */
  ghost predicate SaleEats(db: Db, p: Process) {
    && p.Process? && p.stage.Deduct? && !p.bill.saleType.Black?
    && LinesTx(db.published, p.bill, p.bill.items, p.call.performedBy).Success?
    && exists item <- p.bill.items ::
         Demand(p.bill.items, item.product) > Free(db.published, RowFor(db.published, LineKey(p.bill, item)))
  }

  lemma {:induction false} NoDemand(items: seq<BillItem>, product: Id)
    requires forall item <- items :: item.product != product
    ensures Demand(items, product) == 0
    decreases |items|
  {
    if items != [] {
      NoDemand(items[..|items| - 1], product);
    }
  }

  lemma SaleRow(p: Pool, bill: Bill, items: seq<BillItem>, item: BillItem)
    requires WellFormed(p) && LinesCovered(p, bill, items) && item in items
    ensures var id := RowFor(p, LineKey(bill, item));
            id in p.rows && p.rows[id].key == LineKey(bill, item) && Sold(p, bill, items, id) == Demand(items, item.product)
  {
    var i :| 0 <= i < |items| && items[i] == item;
    assert LineCovered(p, bill, items, i);
  }

  lemma SaleKeepsIff(p: Pool, bill: Bill, items: seq<BillItem>, user: Id)
    requires WellFormed(p) && LinesTx(p, bill, items, user).Success? && Backed(p)
    ensures Backed(LinesTx(p, bill, items, user).value) <==>
            forall item <- items :: Demand(items, item.product) <= Free(p, RowFor(p, LineKey(bill, item)))
  {
    var q := LinesTx(p, bill, items, user).value;
    LinesSucceedIffCovered(p, bill, items, user);
    assert forall id :: QtyOf(q, id) == Qty(QtyOf(p, id).onHand - Sold(p, bill, items, id), QtyOf(p, id).reserved);
    if Backed(q) {
      forall item <- items ensures Demand(items, item.product) <= Free(p, RowFor(p, LineKey(bill, item))) {
        SaleRow(p, bill, items, item);
        var id := RowFor(p, LineKey(bill, item));
        assert QtyOf(q, id) == Qty(q.rows[id].onHand, q.rows[id].reserved);
      }
    }
    if forall item <- items :: Demand(items, item.product) <= Free(p, RowFor(p, LineKey(bill, item))) {
      forall id <- q.rows ensures 0 <= q.rows[id].reserved <= q.rows[id].onHand {
        assert QtyOf(q, id) == Qty(q.rows[id].onHand, q.rows[id].reserved);
        SoldWithinFree(p, bill, items, id);
      }
    }
  }

  lemma SoldWithinFree(p: Pool, bill: Bill, items: seq<BillItem>, id: RowId)
    requires WellFormed(p) && Backed(p) && id in p.rows
    requires forall item <- items :: Demand(items, item.product) <= Free(p, RowFor(p, LineKey(bill, item)))
    ensures Sold(p, bill, items, id) <= Free(p, id)
  {
    var key := p.rows[id].key;
    if key.organization == bill.organization && key.location == bill.location {
      if item: BillItem :| item in items && item.product == key.product {
        assert LineKey(bill, item) == key && RowFor(p, key) == id;
      } else {
        NoDemand(items, key.product);
      }
    }
  }

  /** A step of a completion keeps every reservation backed exactly unless it is such a sale. */
  lemma StepKeepsIff(db: Db, p: Process)
    requires WellFormed(db.published) && Backed(db.published)
    ensures Backed(Advance(db, p).0.published) <==> !SaleEats(db, p)
  {
    if p.Process? && p.stage.Deduct? {
      var r := LinesTx(db.published, p.bill, p.bill.items, p.call.performedBy);
      if !p.bill.saleType.Black? && r.Success? {
        SaleKeepsIff(db.published, p.bill, p.bill.items, p.call.performedBy);
      }
    } else {
      AdvanceFrame(db, p);
    }
  }

  /** Past the stock transaction a completion moves no stock. */
  lemma {:induction false} LaterKeepsStock(db: Db, p: Process, k: nat)
    requires p.Process? ==> !p.stage.Gate? && !p.stage.Deduct?
    ensures Drive(db, p, k).0.published == db.published
    decreases k
  {
    if k > 0 {
      LaterStage(db, p);
      LaterKeepsStock(Advance(db, p).0, Advance(db, p).1, k - 1);
    }
  }

  lemma LaterStage(db: Db, p: Process)
    requires p.Process? ==> !p.stage.Gate? && !p.stage.Deduct?
    ensures Advance(db, p).0.published == db.published
    ensures var q := Advance(db, p).1; q.Process? ==> !q.stage.Gate? && !q.stage.Deduct?
  {
  }

  /** A whole call reaches its stock transaction after one step, and has run it after two. */
  ghost predicate CompletionEats(db: Db, call: CompleteCall, k: nat) {
    k >= 2 && SaleEats(Advance(db, Begin(db, call)).0, Advance(db, Begin(db, call)).1)
  }

  lemma FirstStep(db: Db, call: CompleteCall)
    ensures Advance(db, Begin(db, call)).0.published == db.published
    ensures var q := Advance(db, Begin(db, call)).1; q.Process? ==> q.stage.Deduct? || q.stage.Failed?
  {
  }

  lemma SecondStep(db: Db, p: Process)
    requires p.Process? ==> p.stage.Deduct? || p.stage.Failed?
    ensures var q := Advance(db, p).1; q.Process? ==> !q.stage.Gate? && !q.stage.Deduct?
  {
  }

  lemma CompletionKeepsIff(db: Db, call: CompleteCall, k: nat)
    requires WellFormed(db.published) && Backed(db.published)
    ensures Backed(Drive(db, Begin(db, call), k).0.published) <==> !CompletionEats(db, call, k)
  {
    var p := Begin(db, call);
    FirstStep(db, call);
    if k >= 2 {
      var (d1, p1) := Advance(db, p);
      var (d2, p2) := Advance(d1, p1);
      assert Drive(db, p, k) == Drive(d1, p1, k - 1) == Drive(d2, p2, k - 2);
      StepKeepsIff(d1, p1);
      SecondStep(d1, p1);
      LaterKeepsStock(d2, p2, k - 2);
    } else if k == 1 {
      assert Drive(db, p, 1) == Drive(Advance(db, p).0, Advance(db, p).1, 0);
    }
  }

  // ---- commits on what was read ----

  ghost predicate RowsBacked(copies: map<RowId, Row>) {
    forall id <- copies :: 0 <= copies[id].reserved <= copies[id].onHand
  }

  /** Saving keeps reservations backed exactly when the transaction's own view does. */
  lemma SavedBackedIff(p: Pool, copies: map<RowId, Row>, q: Pool)
    requires Backed(p) && RowsBacked(copies) && p.rows.Keys <= q.rows.Keys
    requires Explained(Overlay(p, copies), q, false)
    ensures Backed(Saved(p, q)) <==> Backed(q)
  {
    var o := Overlay(p, copies);
    if Backed(Saved(p, q)) {
      forall id <- q.rows ensures 0 <= q.rows[id].reserved <= q.rows[id].onHand {
        if id in p.rows && !Writes(Added(p, q), id) {
          ReplayUnwritten(QtyOf(o, id), id, Added(o, q));
          assert QtyOf(q, id) == QtyOf(o, id);
        } else {
          assert Saved(p, q).rows[id] == q.rows[id];
        }
      }
    }
  }

  lemma StampedBackedIff(db: Db, d: Db, firsts: Copies)
    requires Appends(db, d)
    ensures Backed(Stamped(db, d, firsts).published) <==> Backed(d.published)
  {
  }

  lemma CommitBackedIff(db: Db, call: StockCall, c: Copies)
    requires PoolsWellFormed(db) && BothFit(db, c) && Arrives(db, c, call)
    requires Backed(db.published) && RowsBacked(c.published)
    ensures Backed(ExecOn(db, call, c).published) <==> Backed(Exec(Seen(db, c), call).published)
  {
    var d := CommitArrives(db, call, c);
    SavedBackedIff(db.published, c.published, d.published);
    StampedBackedIff(db, SavedDb(db, d), FirstsOf(call, c));
  }

  lemma CommitKeepsIff(db: Db, call: StockCall, c: Copies)
    requires PoolsWellFormed(db) && BothFit(db, c) && QuantitiesNonNegative(call)
    requires Backed(db.published) && RowsBacked(c.published)
    ensures Backed(ExecOn(db, call, c).published) <==> !(Arrives(db, c, call) && Eats(Seen(db, c).published, call))
  {
    if Arrives(db, c, call) {
      SeenGrows(db, c);
      ReservationsKeptIff(Seen(db, c), call);
      CommitBackedIff(db, call, c);
    }
  }

  lemma SaleSavedKeepsIff(db: Db, p: Process, c: Copies)
    requires PoolsWellFormed(db) && BothFit(db, c) && Backed(db.published) && RowsBacked(c.published)
    requires SaleArrives(db, p, c)
    ensures Backed(AdvanceOn(db, p, c).0.published) <==> Backed(SaleSeen(db, p, c).published)
  {
    SaleSeenExplained(db, p, c);
    SaleSaves(db, p, c);
    SavedBackedIff(db.published, c.published, SaleSeen(db, p, c).published);
  }

  lemma SaleSeenBackedIff(db: Db, p: Process, c: Copies)
    requires SaleArrives(db, p, c) && PoolsWellFormed(Seen(db, c)) && Backed(Seen(db, c).published)
    ensures Backed(SaleSeen(db, p, c).published) <==> !SaleEats(Seen(db, c), p)
  {
    StepKeepsIff(Seen(db, c), p);
    assert Advance(Seen(db, c), p).0 == SaleSeen(db, p, c);
  }

  lemma SaleOnKeepsIff(db: Db, p: Process, c: Copies)
    requires PoolsWellFormed(db) && BothFit(db, c) && Backed(db.published) && RowsBacked(c.published)
    ensures Backed(AdvanceOn(db, p, c).0.published) <==> !SaleEats(Seen(db, c), p)
  {
    if SaleArrives(db, p, c) {
      SeenGrows(db, c);
      SaleSeenBackedIff(db, p, c);
      SaleSavedKeepsIff(db, p, c);
    } else if !(p.Process? && p.stage.Deduct?) {
      StepKeepsIff(db, p);
    }
  }

  // ---- every run ----

  /** The event takes stock that is reserved. */
  ghost predicate EatsIn(w: World, e: Event) {
    match e
    case Serving(r) =>
      (match r
       case StockRequest(call) => Tx(w.db, call).Success? && Eats(w.db.published, call)
       case CompleteRequest(call, k) => CompletionEats(w.db, call, k)
       case _ => false)
    case Steps(pid) => pid in w.processes && SaleEats(w.db, w.processes[pid])
    case CommitsAdjustment(s, op) =>
      s in w.snapshots && op.inventoryId in w.db.published.rows && Eats(w.db.published, CommitAdjust(op, w.snapshots[s]))
    case CommitsStock(tx, call) =>
      Arrives(w.db, CopiesOf(w, tx), call) && Eats(Seen(w.db, CopiesOf(w, tx)).published, call)
    case StepsOn(pid, tx) => pid in w.processes && SaleEats(Seen(w.db, CopiesOf(w, tx)), w.processes[pid])
    case _ => false
  }

  ghost predicate WorldBacked(w: World) {
    && PoolsWellFormed(w.db) && CopiesFit(w) && Backed(w.db.published)
    && forall tx <- w.copies :: RowsBacked(w.copies[tx].published)
  }

  lemma ServeKeepsIff(w: World, r: Request)
    requires WellFormed(w.db.published) && Backed(w.db.published) && RequestNonNegative(r)
    ensures Backed(Serve(w.db, r).published) <==> !EatsIn(w, Serving(r))
  {
    match r
    case StockRequest(call) => ReservationsKeptIff(w.db, call);
    case CompleteRequest(call, k) => CompletionKeepsIff(w.db, call, k);
    case _ =>
  }

  lemma EventKeepsIff(w: World, e: Event)
    requires WorldBacked(w) && EventNonNegative(e)
    ensures Backed(Step(w, e).db.published) <==> !EatsIn(w, e)
  {
    match e
    case Serving(r) => ServeKeepsIff(w, r);
    case Steps(pid) => if pid in w.processes { StepKeepsIff(w.db, w.processes[pid]); }
    case CommitsAdjustment(s, op) =>
      if s in w.snapshots { ReservationsKeptIff(w.db, CommitAdjust(op, w.snapshots[s])); }
    case CommitsStock(tx, call) => CommitKeepsIff(w.db, call, CopiesOf(w, tx));
    case StepsOn(pid, tx) => if pid in w.processes { SaleOnKeepsIff(w.db, w.processes[pid], CopiesOf(w, tx)); }
    case _ =>
  }

  lemma CopyStaysBacked(w: World, e: Event, tx: nat)
    requires WorldBacked(w) && tx in Step(w, e).copies
    ensures RowsBacked(Step(w, e).copies[tx].published)
  {
    if (e.ReadsRow? || e.ReadsFirst?) && e.tx == tx {
      assert RowsBacked(CopiesOf(w, tx).published);
    } else {
      OtherCopies(w, e, tx);
    }
  }

  lemma CopiesStayBacked(w: World, e: Event)
    requires WorldBacked(w) && Backed(Step(w, e).db.published)
    ensures WorldBacked(Step(w, e))
  {
    StepFits(w, e);
    forall tx <- Step(w, e).copies ensures RowsBacked(Step(w, e).copies[tx].published) {
      CopyStaysBacked(w, e, tx);
    }
  }

  ghost predicate BackedThroughout(w: World, es: seq<Event>)
    decreases |es|
  {
    Backed(w.db.published) && (es == [] || BackedThroughout(Step(w, es[0]), es[1..]))
  }

  ghost predicate NoneEats(w: World, es: seq<Event>)
    decreases |es|
  {
    es == [] || (!EatsIn(w, es[0]) && NoneEats(Step(w, es[0]), es[1..]))
  }

  /** Over every interleaving, reservations are backed in all states exactly when no event takes
      reserved stock. */
  lemma {:induction false} BackedIffNoneEats(w: World, es: seq<Event>)
    requires WorldBacked(w) && forall e <- es :: EventNonNegative(e)
    ensures BackedThroughout(w, es) <==> NoneEats(w, es)
    decreases |es|
  {
    if es != [] {
      EventKeepsIff(w, es[0]);
      if Backed(Step(w, es[0]).db.published) {
        CopiesStayBacked(w, es[0]);
        assert forall e <- es[1..] :: e in es;
        BackedIffNoneEats(Step(w, es[0]), es[1..]);
      }
    }
  }

  // ---- two operations that fail ----

  function RowPool(id: RowId, other: RowId, a: Key, b: Key): Pool {
    Pool(map[id := Row(a, 10, 5), other := Row(b, 0, 0)], map[a := id, b := other], [])
  }

  /** Of a row with 10 on hand and 5 reserved, 8 can be transferred away. */
  lemma TransferTakesReserved(a: Key, b: Key, meta: TransferOperation)
    requires a != b
    ensures var p := RowPool(Given(0), Given(1), a, b);
            var t := meta.(source := Given(0), destination := Some(Given(1)), quantity := 8);
            && WellFormed(p) && Backed(p) && TransferTx(p, t).Success?
            && TransferTx(p, t).value.rows[Given(0)] == Row(a, 2, 5) && !Backed(TransferTx(p, t).value)
  {
    var p := RowPool(Given(0), Given(1), a, b);
    var t := meta.(source := Given(0), destination := Some(Given(1)), quantity := 8);
    TransferSplit(p, t);
    TransferKeepsIff(p, t);
  }

  /** And 8 can be sold. */
  lemma SaleTakesReserved(a: Key, b: Key, bill: Bill, item: BillItem, user: Id)
    requires a != b && LineKey(bill, item) == a && item.quantity == 8
    ensures var p := RowPool(Given(0), Given(1), a, b);
            && WellFormed(p) && Backed(p) && LinesTx(p, bill, [item], user).Success?
            && Given(0) in LinesTx(p, bill, [item], user).value.rows
            && LinesTx(p, bill, [item], user).value.rows[Given(0)] == Row(a, 2, 5)
            && !Backed(LinesTx(p, bill, [item], user).value)
  {
    var p := RowPool(Given(0), Given(1), a, b);
    assert [item][1..] == [];
    assert LinesTx(p, bill, [item], user) == LineTx(p, bill, item, user);
  }
}
