/** Conservation of stock over every interleaving of transfers, transfer batches and publishes. */
module Conservation {
  import opened Wrappers
  import opened StockPool
  import opened Ledger
  import opened Tables
  import opened StockOrchestration
  import opened StockProofs
  import opened BillCompletion
  import opened Runs
  import opened Isolation
  import opened Interleaving

  function Only(rows: map<RowId, Row>, ids: set<RowId>): map<RowId, Row> {
    map id | id in rows && id in ids :: rows[id]
  }

  lemma OnlyRemove(rows: map<RowId, Row>, ids: set<RowId>, id: RowId)
    ensures Only(rows - {id}, ids) == Only(rows, ids) - {id}
  {
  }

  lemma OnlyTotal(rows: map<RowId, Row>, ids: set<RowId>, id: RowId, product: Option<Id>)
    requires id in rows
    ensures Total(Only(rows, ids), product)
         == Total(Only(rows - {id}, ids), product) + (if id in ids then Weight(product, rows[id]) else 0)
  {
    OnlyRemove(rows, ids, id);
    if id in ids {
      TotalRemove(Only(rows, ids), product, id);
    } else {
      assert Only(rows, ids) - {id} == Only(rows, ids);
    }
  }

  /** `c` was computed from the copies `b` of the rows `a`, and `d` takes from it the rows in `ids` and
      the new ones, and the others from `a`. */
  predicate Merged(a: map<RowId, Row>, b: map<RowId, Row>, c: map<RowId, Row>, d: map<RowId, Row>, ids: set<RowId>,
                   product: Option<Id>)
  {
    && a.Keys == b.Keys && a.Keys <= c.Keys && c.Keys == d.Keys
    && forall id <- c ::
         if id in a && id !in ids
         then Weight(product, d[id]) == Weight(product, a[id]) && Weight(product, c[id]) == Weight(product, b[id])
         else Weight(product, d[id]) == Weight(product, c[id])
  }

  lemma MergedLess(a: map<RowId, Row>, b: map<RowId, Row>, c: map<RowId, Row>, d: map<RowId, Row>, ids: set<RowId>,
                   product: Option<Id>, id: RowId)
    requires Merged(a, b, c, d, ids, product)
    ensures Merged(a - {id}, b - {id}, c - {id}, d - {id}, ids, product)
  {
    var c' := c - {id};
    forall i <- c'
      ensures if i in a - {id} && i !in ids
              then Weight(product, (d - {id})[i]) == Weight(product, (a - {id})[i])
                   && Weight(product, c'[i]) == Weight(product, (b - {id})[i])
              else Weight(product, (d - {id})[i]) == Weight(product, c'[i])
    {
      assert i in c && i != id;
    }
  }

  /** A row's weight in a table, if it is there. */
  ghost function WeightAt(rows: map<RowId, Row>, product: Option<Id>, id: RowId): int {
    if id in rows then Weight(product, rows[id]) else 0
  }

  lemma TotalLess(rows: map<RowId, Row>, ids: set<RowId>, id: RowId, product: Option<Id>)
    ensures Total(rows, product) == Total(rows - {id}, product) + WeightAt(rows, product, id)
    ensures Total(Only(rows, ids), product)
         == Total(Only(rows - {id}, ids), product) + (if id in ids then WeightAt(rows, product, id) else 0)
  {
    if id in rows {
      TotalRemove(rows, product, id);
      OnlyTotal(rows, ids, id, product);
    } else {
      assert rows - {id} == rows;
    }
  }

  lemma {:induction false} FourTotals(a: map<RowId, Row>, b: map<RowId, Row>, c: map<RowId, Row>, d: map<RowId, Row>,
                                      ids: set<RowId>, product: Option<Id>)
    requires Merged(a, b, c, d, ids, product)
    ensures Total(d, product) - Total(a, product)
         == Total(c, product) - Total(b, product) + Total(Only(b, ids), product) - Total(Only(a, ids), product)
    decreases |c|
  {
    if c == map[] {
      assert a == map[] && b == map[] && d == map[];
    } else {
      var id :| id in c;
      MergedLess(a, b, c, d, ids, product, id);
      FourTotals(a - {id}, b - {id}, c - {id}, d - {id}, ids, product);
      TotalLess(a, ids, id, product);
      TotalLess(b, ids, id, product);
      TotalLess(c, ids, id, product);
      TotalLess(d, ids, id, product);
    }
  }

  // ---- one commit ----

  function Written(p: Pool, q: Pool): set<RowId>
    requires p.movements <= q.movements
  {
    set id | id in p.rows && Writes(Added(p, q), id)
  }

  /** By how much the copies of the rows a transaction wrote exceeded the stored rows. */
  ghost function Outdated(p: Pool, copies: map<RowId, Row>, q: Pool, product: Option<Id>): int
    requires p.movements <= q.movements
  {
    Total(Only(Overlay(p, copies).rows, Written(p, q)), product) - Total(Only(p.rows, Written(p, q)), product)
  }

  lemma SavedMerges(p: Pool, copies: map<RowId, Row>, q: Pool, product: Option<Id>)
    requires WellFormed(p) && Fit(p, copies) && Grows(Overlay(p, copies), q) && Explained(Overlay(p, copies), q, false)
    ensures Merged(p.rows, Overlay(p, copies).rows, q.rows, Saved(p, q).rows, Written(p, q), product)
  {
    var o := Overlay(p, copies);
    forall id <- q.rows | id in p.rows && id !in Written(p, q)
      ensures Weight(product, q.rows[id]) == Weight(product, o.rows[id]) && Saved(p, q).rows[id] == p.rows[id]
    {
      ReplayUnwritten(QtyOf(o, id), id, Added(o, q));
      assert QtyOf(q, id) == QtyOf(o, id) && KeyOf(q, id) == KeyOf(o, id);
    }
  }

  /** What is saved differs from what the transaction computed by how outdated its copies were. */
  lemma SavedTotal(p: Pool, copies: map<RowId, Row>, q: Pool, product: Option<Id>)
    requires WellFormed(p) && Fit(p, copies) && Grows(Overlay(p, copies), q) && Explained(Overlay(p, copies), q, false)
    ensures Total(Saved(p, q).rows, product) - Total(p.rows, product)
         == Total(q.rows, product) - Total(Overlay(p, copies).rows, product) + Outdated(p, copies, q, product)
  {
    SavedMerges(p, copies, q, product);
    FourTotals(p.rows, Overlay(p, copies).rows, q.rows, Saved(p, q).rows, Written(p, q), product);
  }

  /** The two pools together. */
  ghost function CommitOutdated(db: Db, c: Copies, d: Db, product: Option<Id>): int
    requires Appends(db, d)
  {
    Outdated(db.published, c.published, d.published, product) + Outdated(db.unpublished, c.unpublished, d.unpublished, product)
  }

  /** A move changes the grand total by exactly how outdated its copies of the rows it wrote were. */
  lemma CommitTotal(db: Db, call: StockCall, c: Copies, product: Option<Id>) returns (d: Db)
    requires PoolsWellFormed(db) && BothFit(db, c) && Arrives(db, c, call)
    requires MovesStock(call) && (product.Some? ==> CallProductsMatch(db, call))
    ensures Tx(Seen(db, c), call) == Success(d) && Appends(db, d)
    ensures GrandTotal(ExecOn(db, call, c), product) == GrandTotal(db, product) + CommitOutdated(db, c, d, product)
  {
    d := CommitArrives(db, call, c);
    SeenGrows(db, c);
    CallStaysMatched(db, Seen(db, c), call);
    ExecConserves(Seen(db, c), call, product);
    SavedTotal(db.published, c.published, d.published, product);
    SavedTotal(db.unpublished, c.unpublished, d.unpublished, product);
  }

  // ---- current reads ----

  predicate NoAdjustment(ms: seq<Movement>) {
    forall m <- ms :: !m.kind.Adjustment?
  }

  lemma TransferAdjustsNothing(p: Pool, t: TransferOperation)
    requires TransferTx(p, t).Success?
    ensures p.movements <= TransferTx(p, t).value.movements && NoAdjustment(Added(p, TransferTx(p, t).value))
  {
  }

  lemma {:induction false} BatchAdjustsNothing(p: Pool, inputs: seq<TransferOperation>)
    requires BatchTx(p, inputs).Success?
    ensures p.movements <= BatchTx(p, inputs).value.movements && NoAdjustment(Added(p, BatchTx(p, inputs).value))
    decreases |inputs|
  {
    if inputs != [] {
      var p1, q := TransferTx(p, inputs[0]).value, BatchTx(p, inputs).value;
      TransferAdjustsNothing(p, inputs[0]);
      BatchAdjustsNothing(p1, inputs[1..]);
      assert Added(p, q) == Added(p, p1) + Added(p1, q);
    }
  }

  lemma MovesAdjustNothing(db: Db, call: StockCall)
    requires MovesStock(call) && Tx(db, call).Success?
    ensures var d := Tx(db, call).value;
            && Appends(db, d)
            && NoAdjustment(Added(db.published, d.published)) && NoAdjustment(Added(db.unpublished, d.unpublished))
  {
    match call
    case Transfer(t) => TransferAdjustsNothing(db.published, t);
    case CompleteBatch(_, inputs) => BatchAdjustsNothing(db.published, inputs);
    case Publish(_) =>
  }

  lemma CurrentIsNotOutdated(p: Pool, copies: map<RowId, Row>, q: Pool, product: Option<Id>)
    requires Fit(p, copies) && p.movements <= q.movements && NoAdjustment(Added(p, q))
    requires ReadCurrent(p, Overlay(p, copies), Added(p, q))
    ensures Outdated(p, copies, q, product) == 0
  {
    var o, ids := Overlay(p, copies), Written(p, q);
    forall id <- Only(p.rows, ids) ensures Weight(product, o.rows[id]) == Weight(product, p.rows[id]) {
      assert RowCurrent(p, o, Added(p, q), id) && !Adjusts(Added(p, q), id);
    }
    FourTotals(map[], map[], Only(p.rows, ids), Only(o.rows, ids), {}, product);
  }

  // ---- runs ----

  predicate AtSale(w: World, pid: nat) {
    pid in w.processes && w.processes[pid].Process? && w.processes[pid].stage.Deduct?
  }

  predicate MovesOf(db: Db, call: StockCall, product: Option<Id>) {
    MovesStock(call) && (product.Some? ==> CallProductsMatch(db, call))
  }

  /** Of stock transactions only moves between matching rows; everything else but sales may happen. */
  predicate OnlyMoves(w: World, e: Event, product: Option<Id>) {
    match e
    case Serving(r) => !r.CompleteRequest? && (r.StockRequest? ==> MovesOf(w.db, r.stock, product))
    case Steps(pid) => !AtSale(w, pid)
    case StepsOn(pid, _) => !AtSale(w, pid)
    case CommitsAdjustment(_, _) => false
    case CommitsStock(_, call) => MovesOf(w.db, call, product)
    case _ => true
  }

  predicate AllMoves(w: World, es: seq<Event>, product: Option<Id>)
    decreases |es|
  {
    es == [] || (OnlyMoves(w, es[0], product) && AllMoves(Step(w, es[0]), es[1..], product))
  }

  ghost function OutdatedOn(db: Db, call: StockCall, c: Copies, product: Option<Id>): int {
    if Arrives(db, c, call) then
      TxAppends(Seen(db, c), call);
      CommitOutdated(db, c, Tx(Seen(db, c), call).value, product)
    else 0
  }

  ghost function EventOutdated(w: World, e: Event, product: Option<Id>): int {
    if e.CommitsStock? then OutdatedOn(w.db, e.stock, CopiesOf(w, e.tx), product) else 0
  }

  lemma ServeTotal(db: Db, r: Request, product: Option<Id>)
    requires PoolsWellFormed(db) && !r.CompleteRequest? && (r.StockRequest? ==> MovesOf(db, r.stock, product))
    ensures GrandTotal(Serve(db, r), product) == GrandTotal(db, product)
  {
    if r.StockRequest? {
      ExecConserves(db, r.stock, product);
    }
  }

  lemma CallTotal(w: World, e: Event, product: Option<Id>)
    requires (e.Steps? || e.StepsOn?) && !AtSale(w, e.pid)
    ensures GrandTotal(Step(w, e).db, product) == GrandTotal(w.db, product)
  {
    if e.pid in w.processes {
      AdvanceFrame(w.db, w.processes[e.pid]);
      if e.StepsOn? {
        AdvanceOnFrame(w.db, w.processes[e.pid], CopiesOf(w, e.tx));
      }
    }
  }

  lemma QuietTotal(w: World, e: Event, product: Option<Id>)
    requires !TouchesStock(e)
    ensures GrandTotal(Step(w, e).db, product) == GrandTotal(w.db, product)
  {
  }

  lemma CommitOnTotal(db: Db, call: StockCall, c: Copies, product: Option<Id>)
    requires PoolsWellFormed(db) && BothFit(db, c) && MovesOf(db, call, product)
    ensures GrandTotal(ExecOn(db, call, c), product) == GrandTotal(db, product) + OutdatedOn(db, call, c, product)
  {
    if Arrives(db, c, call) {
      var d := CommitTotal(db, call, c, product);
    }
  }

  /** One event changes the grand total by how outdated its copies were. */
  lemma EventTotal(w: World, e: Event, product: Option<Id>)
    requires PoolsWellFormed(w.db) && CopiesFit(w) && OnlyMoves(w, e, product)
    ensures GrandTotal(Step(w, e).db, product) == GrandTotal(w.db, product) + EventOutdated(w, e, product)
  {
    if e.Serving? {
      ServeTotal(w.db, e.request, product);
    } else if e.Steps? || e.StepsOn? {
      CallTotal(w, e, product);
    } else if e.CommitsStock? {
      CommitOnTotal(w.db, e.stock, CopiesOf(w, e.tx), product);
    } else {
      QuietTotal(w, e, product);
    }
  }

  ghost predicate ConservedThroughout(w: World, es: seq<Event>, product: Option<Id>)
    decreases |es|
  {
    es == [] ||
    (GrandTotal(Step(w, es[0]).db, product) == GrandTotal(w.db, product) && ConservedThroughout(Step(w, es[0]), es[1..], product))
  }

  ghost predicate NoneOutdated(w: World, es: seq<Event>, product: Option<Id>)
    decreases |es|
  {
    es == [] || (EventOutdated(w, es[0], product) == 0 && NoneOutdated(Step(w, es[0]), es[1..], product))
  }

  lemma {:induction false} ConservedToEnd(w: World, es: seq<Event>, product: Option<Id>)
    requires ConservedThroughout(w, es, product)
    ensures GrandTotal(StepAll(w, es).db, product) == GrandTotal(w.db, product)
    decreases |es|
  {
    if es != [] {
      ConservedToEnd(Step(w, es[0]), es[1..], product);
    }
  }

  lemma MoveStep(w: World, e: Event, product: Option<Id>)
    requires PoolsWellFormed(w.db) && CopiesFit(w) && OnlyMoves(w, e, product)
    ensures PoolsWellFormed(Step(w, e).db) && CopiesFit(Step(w, e))
    ensures GrandTotal(Step(w, e).db, product) == GrandTotal(w.db, product) + EventOutdated(w, e, product)
  {
    StepFits(w, e);
    EventTotal(w, e, product);
  }

  lemma {:induction false} ConservedIff(w: World, es: seq<Event>, product: Option<Id>)
    requires PoolsWellFormed(w.db) && CopiesFit(w) && AllMoves(w, es, product)
    ensures ConservedThroughout(w, es, product) <==> NoneOutdated(w, es, product)
    decreases |es|
  {
    if es != [] {
      MoveStep(w, es[0], product);
      ConservedIff(Step(w, es[0]), es[1..], product);
    }
  }

  /** Over every interleaving of moves, overlapping or not, the published plus unpublished total, of all
      products or of one, is the same in all states exactly when in each commit the copies of the rows
      it wrote hold in sum what is stored. */
  lemma ConservedIffNoneOutdated(w: World, es: seq<Event>, product: Option<Id>)
    requires PoolsWellFormed(w.db) && CopiesFit(w) && AllMoves(w, es, product)
    ensures ConservedThroughout(w, es, product) <==> NoneOutdated(w, es, product)
    ensures ConservedThroughout(w, es, product) ==> GrandTotal(StepAll(w, es).db, product) == GrandTotal(w.db, product)
  {
    ConservedIff(w, es, product);
    if ConservedThroughout(w, es, product) {
      ConservedToEnd(w, es, product);
    }
  }

  lemma CurrentCommit(db: Db, call: StockCall, c: Copies, product: Option<Id>)
    requires PoolsWellFormed(db) && BothFit(db, c) && Arrives(db, c, call) && MovesStock(call)
    requires BothCurrent(db, c, Tx(Seen(db, c), call).value)
    ensures CommitOutdated(db, c, Tx(Seen(db, c), call).value, product) == 0
  {
    var d := CommitArrives(db, call, c);
    MovesAdjustNothing(Seen(db, c), call);
    CurrentIsNotOutdated(db.published, c.published, d.published, product);
    CurrentIsNotOutdated(db.unpublished, c.unpublished, d.unpublished, product);
  }

  lemma CurrentEvent(w: World, e: Event, product: Option<Id>)
    requires PoolsWellFormed(w.db) && CopiesFit(w) && OnlyMoves(w, e, product) && ReadsCurrent(w, e)
    ensures EventOutdated(w, e, product) == 0
  {
    if e.CommitsStock? && Arrives(w.db, CopiesOf(w, e.tx), e.stock) {
      CurrentCommit(w.db, e.stock, CopiesOf(w, e.tx), product);
    }
  }

  /** So interleavings in which every commit has read current rows conserve the stock. */
  lemma {:induction false} CurrentMovesConserve(w: World, es: seq<Event>, product: Option<Id>)
    requires PoolsWellFormed(w.db) && CopiesFit(w) && AllMoves(w, es, product) && AllCurrent(w, es)
    ensures ConservedThroughout(w, es, product) && GrandTotal(StepAll(w, es).db, product) == GrandTotal(w.db, product)
    decreases |es|
  {
    if es != [] {
      CurrentEvent(w, es[0], product);
      MoveStep(w, es[0], product);
      CurrentMovesConserve(Step(w, es[0]), es[1..], product);
    }
  }
}
