/** Properties of the stock operations: every quantity is explained by its movements, transfers
    conserve stock, and a transfer batch does not depend on its order. */
module StockProofs {
  import opened Wrappers
  import opened StockPool
  import opened Ledger
  import opened Tables
  import opened StockOrchestration

  // ---- pools stay well formed and rows keep their keys ----

  /** The key a row id stands for, whether or not the row has been created yet. */
  function KeyOf(p: Pool, id: RowId): Option<Key> {
    if id.Created? then Some(id.key) else if id in p.rows then Some(p.rows[id].key) else None
  }

  /** Rows are never dropped, never change their key, and lookups by key keep their answer. */
  ghost predicate Grows(p: Pool, q: Pool) {
    && WellFormed(q)
    && p.rows.Keys <= q.rows.Keys
    && (forall id :: KeyOf(q, id) == KeyOf(p, id))
    && (forall key :: RowFor(q, key) == RowFor(p, key))
  }

  lemma FindOrCreateGrows(p: Pool, key: Key)
    requires WellFormed(p)
    ensures Grows(p, FindOrCreate(p, key)) && RowFor(p, key) in FindOrCreate(p, key).rows
    ensures Explained(p, FindOrCreate(p, key), true)
    ensures forall id :: QtyOf(FindOrCreate(p, key), id) == QtyOf(p, id)
  {
    ExplainedRefl(p);
    assert Added(p, FindOrCreate(p, key)) == Added(p, p) == [];
  }

  lemma GrowsTrans(p: Pool, q: Pool, r: Pool)
    requires Grows(p, q) && Grows(q, r)
    ensures Grows(p, r)
  {
  }

  /** Changing the quantities of one row. */
  lemma SetRowGrows(p: Pool, q: Pool, id: RowId)
    requires WellFormed(p) && id in p.rows && id in q.rows && q.rows[id].key == p.rows[id].key
    requires q.rows == p.rows[id := q.rows[id]] && q.index == p.index
    ensures Grows(p, q)
  {
  }

  /** `q` is `p` with one row's quantities changed as the appended movement `m` says; with `exact`,
      the movement's before/after values are the true ones. */
  ghost predicate Posts(p: Pool, q: Pool, m: Movement, exact: bool) {
    && m.row in p.rows && m.row in q.rows
    && q.rows[m.row].key == p.rows[m.row].key
    && q == Record(SetRow(p, m.row, q.rows[m.row]).pool, m)
    && QtyOf(q, m.row) == Apply(QtyOf(p, m.row), m)
    && (exact ==> m.before == Channel(QtyOf(p, m.row), m.kind) && m.after == Channel(QtyOf(q, m.row), m.kind))
  }

  lemma PostsGrows(p: Pool, q: Pool, m: Movement, exact: bool)
    requires WellFormed(p) && Posts(p, q, m, exact)
    ensures Grows(p, q) && Explained(p, q, exact)
  {
    SetRowGrows(p, q, m.row);
    PostExplained(p, q, m, exact);
  }

  /** Calls that post exactly one movement to one published row. */
  predicate PostsOnce(call: StockCall) {
    !(call.Transfer? || call.CompleteBatch? || call.AddUnpublished? || call.Publish?)
  }

  /** An adjustment whose snapshot is still the quantity on hand when its transaction runs. */
  predicate SnapshotCurrent(db: Db, call: StockCall) {
    call.CommitAdjust? && call.adjust.inventoryId in db.published.rows ==>
      call.quantityBefore == db.published.rows[call.adjust.inventoryId].onHand
  }

  /** `d` is `db` with one movement posted to one published row. */
  ghost predicate PostedOnce(db: Db, d: Db, exact: bool) {
    && d.unpublished == db.unpublished
    && |d.published.movements| == |db.published.movements| + 1
    && Posts(db.published, d.published, d.published.movements[|db.published.movements|], exact)
  }

  lemma OnHandCallPosts(db: Db, call: StockCall)
    requires (call.Add? || call.Remove? || call.DamageOut? || call.WriteOffOut?) && Tx(db, call).Success?
    ensures PostedOnce(db, Tx(db, call).value, true)
  {
  }

  lemma OtherCallPosts(db: Db, call: StockCall)
    requires (call.Adjust? || call.CommitAdjust? || call.Reserve? || call.Release?) && Tx(db, call).Success?
    ensures PostedOnce(db, Tx(db, call).value, SnapshotCurrent(db, call))
  {
  }

  lemma SingleCallPosts(db: Db, call: StockCall)
    requires PostsOnce(call) && Tx(db, call).Success?
    ensures PostedOnce(db, Tx(db, call).value, SnapshotCurrent(db, call))
  {
    if call.Adjust? || call.CommitAdjust? || call.Reserve? || call.Release? {
      OtherCallPosts(db, call);
    } else {
      OnHandCallPosts(db, call);
    }
  }

  lemma PublishPosts(db: Db, op: PublishOperation)
    requires PublishTx(db, op).Success?
    ensures var d := PublishTx(db, op).value;
            && |d.published.movements| == |db.published.movements| + 1
            && |d.unpublished.movements| == |db.unpublished.movements| + 1
            && Posts(db.published, d.published, d.published.movements[|db.published.movements|], true)
            && Posts(db.unpublished, d.unpublished, d.unpublished.movements[|db.unpublished.movements|], true)
  {
  }

  lemma AddUnpublishedPosts(p: Pool, op: AddUnpublishedOperation)
    requires AddUnpublishedTx(p, op).Success?
    ensures var p1, q := FindOrCreate(p, op.key), AddUnpublishedTx(p, op).value;
            && |q.movements| == |p1.movements| + 1
            && Posts(p1, q, q.movements[|p1.movements|], true)
  {
  }

  /** The pools between the steps of a successful transfer. */
  function TransferStep(p: Pool, t: TransferOperation): (q: Pool)
    requires t.source in WithDestination(p, t).rows
  {
    var p1 := WithDestination(p, t);
    var src := p1.rows[t.source].(onHand := p1.rows[t.source].onHand - t.quantity);
    Record(SetRow(p1, t.source, src).pool,
           Movement(t.source, TransferOut, t.quantity, src.onHand + t.quantity, src.onHand, SourceMeta(t)))
  }

  function TransferEnd(p: Pool, t: TransferOperation): (q: Pool)
    requires t.source in WithDestination(p, t).rows && DestinationId(p, t) in TransferStep(p, t).rows
  {
    var p2, to := TransferStep(p, t), DestinationId(p, t);
    var dest := p2.rows[to].(onHand := p2.rows[to].onHand + t.quantity);
    Record(SetRow(p2, to, dest).pool,
           Movement(to, TransferIn, t.quantity, dest.onHand - t.quantity, dest.onHand, DestinationMeta(t)))
  }

  /** Posting the two movements at the end is the same as posting each with its row change. */
  lemma TransferSplit(p: Pool, t: TransferOperation)
    ensures TransferTx(p, t).Success? <==>
            && t.source in WithDestination(p, t).rows && t.quantity <= WithDestination(p, t).rows[t.source].onHand
            && DestinationId(p, t) in WithDestination(p, t).rows
    ensures TransferTx(p, t).Success? ==> TransferTx(p, t).value == TransferEnd(p, t)
  {
  }

  lemma WithDestinationGrows(p: Pool, t: TransferOperation)
    requires WellFormed(p)
    ensures Grows(p, WithDestination(p, t)) && Explained(p, WithDestination(p, t), true)
    ensures forall id :: QtyOf(WithDestination(p, t), id) == QtyOf(p, id)
  {
    FindOrCreateGrows(p, DestinationKey(t));
    ExplainedRefl(p);
  }

  lemma TransferGrows(p: Pool, t: TransferOperation)
    requires WellFormed(p) && TransferTx(p, t).Success?
    ensures Grows(p, TransferTx(p, t).value)
  {
    TransferSplit(p, t);
    WithDestinationGrows(p, t);
    var p1, p2 := WithDestination(p, t), TransferStep(p, t);
    SetRowGrows(p1, p2, t.source);
    SetRowGrows(p2, TransferEnd(p, t), DestinationId(p, t));
    GrowsTrans(p, p1, p2);
    GrowsTrans(p, p2, TransferEnd(p, t));
  }

  lemma {:induction false} BatchGrows(p: Pool, inputs: seq<TransferOperation>)
    requires WellFormed(p) && BatchTx(p, inputs).Success?
    ensures Grows(p, BatchTx(p, inputs).value)
    decreases |inputs|
  {
    if inputs != [] {
      var p1 := TransferTx(p, inputs[0]).value;
      TransferGrows(p, inputs[0]);
      BatchGrows(p1, inputs[1..]);
      GrowsTrans(p, p1, BatchTx(p, inputs).value);
    }
  }

  lemma AddUnpublishedGrows(p: Pool, op: AddUnpublishedOperation)
    requires WellFormed(p) && AddUnpublishedTx(p, op).Success?
    ensures Grows(p, AddUnpublishedTx(p, op).value) && Explained(p, AddUnpublishedTx(p, op).value, true)
  {
    var p1, q := FindOrCreate(p, op.key), AddUnpublishedTx(p, op).value;
    FindOrCreateGrows(p, op.key);
    AddUnpublishedPosts(p, op);
    PostsGrows(p1, q, q.movements[|p1.movements|], true);
    GrowsTrans(p, p1, q);
    ExplainedTrans(p, p1, q, true);
  }

  lemma GrowsRefl(p: Pool)
    requires WellFormed(p)
    ensures Grows(p, p) && Explained(p, p, true)
  {
    ExplainedRefl(p);
  }

  /** Stock calls touch nothing but the two pools and a transfer's status. */
  lemma ExecFrame(db: Db, call: StockCall)
    ensures var d := Exec(db, call);
            d == db.(published := d.published, unpublished := d.unpublished, transfers := d.transfers)
  {
  }

  // ---- ledger replay ----

  lemma TransferExplained(p: Pool, t: TransferOperation)
    requires WellFormed(p) && TransferTx(p, t).Success?
    ensures Explained(p, TransferTx(p, t).value, true)
  {
    TransferSplit(p, t);
    WithDestinationGrows(p, t);
    StepPosts(p, t);
    EndPosts(p, t);
    ExplainedTrans(p, WithDestination(p, t), TransferStep(p, t), true);
    ExplainedTrans(p, TransferStep(p, t), TransferEnd(p, t), true);
  }

  lemma StepPosts(p: Pool, t: TransferOperation)
    requires t.source in WithDestination(p, t).rows
    ensures Explained(WithDestination(p, t), TransferStep(p, t), true)
  {
    var p1, p2 := WithDestination(p, t), TransferStep(p, t);
    PostExplained(p1, p2, p2.movements[|p1.movements|], true);
  }

  lemma EndPosts(p: Pool, t: TransferOperation)
    requires t.source in WithDestination(p, t).rows && DestinationId(p, t) in TransferStep(p, t).rows
    ensures Explained(TransferStep(p, t), TransferEnd(p, t), true)
  {
    var p2, p3 := TransferStep(p, t), TransferEnd(p, t);
    PostExplained(p2, p3, p3.movements[|p2.movements|], true);
  }

  lemma {:induction false} BatchExplained(p: Pool, inputs: seq<TransferOperation>)
    requires WellFormed(p) && BatchTx(p, inputs).Success?
    ensures Explained(p, BatchTx(p, inputs).value, true)
    decreases |inputs|
  {
    if inputs == [] {
      ExplainedRefl(p);
    } else {
      var p1 := TransferTx(p, inputs[0]).value;
      TransferGrows(p, inputs[0]);
      TransferExplained(p, inputs[0]);
      BatchExplained(p1, inputs[1..]);
      ExplainedTrans(p, p1, BatchTx(p, inputs).value, true);
    }
  }

  /** Every stock call leaves both pools explained by their movements, whether it commits or rolls
      back; and unless it is an adjustment with an outdated snapshot, their before/after values are exact. */
  lemma ExecExplained(db: Db, call: StockCall)
    requires WellFormed(db.published) && WellFormed(db.unpublished)
    ensures Grows(db.published, Exec(db, call).published) && Grows(db.unpublished, Exec(db, call).unpublished)
    ensures Explained(db.published, Exec(db, call).published, SnapshotCurrent(db, call))
    ensures Explained(db.unpublished, Exec(db, call).unpublished, true)
  {
    GrowsRefl(db.published);
    GrowsRefl(db.unpublished);
    if Tx(db, call).Success? {
      var d := Tx(db, call).value;
      if PostsOnce(call) {
        SingleCallPosts(db, call);
        PostsGrows(db.published, d.published, d.published.movements[|db.published.movements|], SnapshotCurrent(db, call));
      } else if call.Publish? {
        PublishPosts(db, call.publish);
        PostsGrows(db.published, d.published, d.published.movements[|db.published.movements|], true);
        PostsGrows(db.unpublished, d.unpublished, d.unpublished.movements[|db.unpublished.movements|], true);
      } else if call.AddUnpublished? {
        AddUnpublishedGrows(db.unpublished, call.unpublished);
      } else if call.Transfer? {
        TransferGrows(db.published, call.transfer);
        TransferExplained(db.published, call.transfer);
      } else {
        BatchGrows(db.published, call.inputs);
        BatchExplained(db.published, call.inputs);
      }
    }
  }

  /** A committed adjustment keeps the chain unbroken exactly when its snapshot was current. */
  lemma AdjustChainedIffCurrent(p: Pool, op: AdjustOperation, before: int)
    requires op.inventoryId in p.rows
    ensures AdjustTx(p, op, before).Success?
    ensures Explained(p, AdjustTx(p, op, before).value, true) <==> before == p.rows[op.inventoryId].onHand
  {
    var q, id := AdjustTx(p, op, before).value, op.inventoryId;
    var m := q.movements[|p.movements|];
    assert Added(p, q) == [m];
    if before == p.rows[id].onHand {
      PostExplained(p, q, m, true);
    } else {
      assert !Chained(QtyOf(p, id), id, [m]);
    }
  }

  // ---- conservation ----

  /** A product filter: `None` counts every row. */
  predicate Counts(product: Option<Id>, key: Key) {
    product.None? || product.value == key.product
  }

  function Weight(product: Option<Id>, row: Row): int {
    if Counts(product, row.key) then row.onHand else 0
  }

  /** The total quantity on hand over all rows, or over the rows of one product. */
  ghost function Total(rows: map<RowId, Row>, product: Option<Id>): int
    decreases |rows|
  {
    if rows == map[] then 0 else
    var id :| id in rows;
    Weight(product, rows[id]) + Total(rows - {id}, product)
  }

  lemma {:induction false} TotalRemove(rows: map<RowId, Row>, product: Option<Id>, id: RowId)
    requires id in rows
    ensures Total(rows, product) == Weight(product, rows[id]) + Total(rows - {id}, product)
    decreases |rows|
  {
    var first :| first in rows && Total(rows, product) == Weight(product, rows[first]) + Total(rows - {first}, product);
    if first != id {
      TotalRemove(rows - {first}, product, id);
      TotalRemove(rows - {id}, product, first);
      assert rows - {first} - {id} == rows - {id} - {first};
    }
  }

  lemma TotalUpdate(rows: map<RowId, Row>, product: Option<Id>, id: RowId, row: Row)
    ensures Total(rows[id := row], product)
         == Total(rows, product) + Weight(product, row) - (if id in rows then Weight(product, rows[id]) else 0)
  {
    TotalRemove(rows[id := row], product, id);
    assert rows[id := row] - {id} == rows - {id};
    if id in rows {
      TotalRemove(rows, product, id);
    } else {
      assert rows - {id} == rows;
    }
  }

  function Moved(product: Option<Id>, key: Option<Key>, quantity: int): int {
    if key.Some? && Counts(product, key.value) then quantity else 0
  }

  lemma WithDestinationTotal(p: Pool, t: TransferOperation, product: Option<Id>)
    requires WellFormed(p)
    ensures Total(WithDestination(p, t).rows, product) == Total(p.rows, product)
  {
    if t.destination.None? && DestinationKey(t) !in p.index {
      TotalUpdate(p.rows, product, Created(DestinationKey(t)), Row(DestinationKey(t), 0, 0));
    }
  }

  /** Lowering the source row, on its own. */
  lemma StepTotal(p: Pool, t: TransferOperation, product: Option<Id>)
    requires WellFormed(p) && t.source in WithDestination(p, t).rows
    ensures Total(TransferStep(p, t).rows, product)
         == Total(WithDestination(p, t).rows, product) - Moved(product, KeyOf(p, t.source), t.quantity)
  {
    var p1, p2 := WithDestination(p, t), TransferStep(p, t);
    WithDestinationGrows(p, t);
    TotalUpdate(p1.rows, product, t.source, p2.rows[t.source]);
    assert KeyOf(p, t.source) == KeyOf(p1, t.source) == Some(p1.rows[t.source].key);
  }

  /** Raising the destination row, on its own. */
  lemma EndTotal(p: Pool, t: TransferOperation, product: Option<Id>)
    requires WellFormed(p) && t.source in WithDestination(p, t).rows && DestinationId(p, t) in TransferStep(p, t).rows
    ensures Total(TransferEnd(p, t).rows, product)
         == Total(TransferStep(p, t).rows, product) + Moved(product, KeyOf(p, DestinationId(p, t)), t.quantity)
  {
    var p1, p2, p3, to := WithDestination(p, t), TransferStep(p, t), TransferEnd(p, t), DestinationId(p, t);
    WithDestinationGrows(p, t);
    SetRowGrows(p1, p2, t.source);
    TotalUpdate(p2.rows, product, to, p3.rows[to]);
    assert KeyOf(p, to) == KeyOf(p2, to) == Some(p2.rows[to].key);
  }

  /** A transfer's exact effect on a product's total, self-transfers and created rows included. */
  lemma TransferTotal(p: Pool, t: TransferOperation, product: Option<Id>)
    requires WellFormed(p) && TransferTx(p, t).Success?
    ensures Total(TransferTx(p, t).value.rows, product)
         == Total(p.rows, product)
            + Moved(product, KeyOf(p, DestinationId(p, t)), t.quantity) - Moved(product, KeyOf(p, t.source), t.quantity)
  {
    TransferSplit(p, t);
    WithDestinationTotal(p, t, product);
    StepTotal(p, t, product);
    EndTotal(p, t, product);
  }

  /** Source and destination rows carry the same product. */
  predicate ProductsMatch(p: Pool, t: TransferOperation) {
    var a, b := KeyOf(p, t.source), KeyOf(p, DestinationId(p, t));
    a.Some? && b.Some? ==> a.value.product == b.value.product
  }

  lemma ProductsStayMatched(p: Pool, q: Pool, t: TransferOperation)
    requires Grows(p, q) && ProductsMatch(p, t)
    ensures ProductsMatch(q, t)
  {
    assert RowFor(q, DestinationKey(t)) == RowFor(p, DestinationKey(t));
    assert KeyOf(q, t.source) == KeyOf(p, t.source);
    assert KeyOf(q, DestinationId(q, t)) == KeyOf(p, DestinationId(p, t));
  }

  lemma {:induction false} BatchTotal(p: Pool, inputs: seq<TransferOperation>, product: Option<Id>)
    requires WellFormed(p) && BatchTx(p, inputs).Success?
    requires product.Some? ==> forall t <- inputs :: ProductsMatch(p, t)
    ensures Total(BatchTx(p, inputs).value.rows, product) == Total(p.rows, product)
    decreases |inputs|
  {
    if inputs != [] {
      var t, p1 := inputs[0], TransferTx(p, inputs[0]).value;
      TransferGrows(p, t);
      TransferConserves(p, t, product);
      forall u <- inputs[1..] | product.Some? ensures ProductsMatch(p1, u) {
        assert u in inputs;
        ProductsStayMatched(p, p1, u);
      }
      BatchTotal(p1, inputs[1..], product);
    }
  }

  lemma TransferConserves(p: Pool, t: TransferOperation, product: Option<Id>)
    requires WellFormed(p) && TransferTx(p, t).Success?
    requires product.Some? ==> ProductsMatch(p, t)
    ensures Total(TransferTx(p, t).value.rows, product) == Total(p.rows, product)
  {
    TransferTotal(p, t, product);
    TransferSplit(p, t);
    WithDestinationGrows(p, t);
    assert KeyOf(p, t.source) == KeyOf(WithDestination(p, t), t.source);
    assert KeyOf(p, DestinationId(p, t)) == KeyOf(WithDestination(p, t), DestinationId(p, t));
  }

  ghost function GrandTotal(db: Db, product: Option<Id>): int {
    Total(db.published.rows, product) + Total(db.unpublished.rows, product)
  }

  predicate MovesStock(call: StockCall) {
    call.Transfer? || call.CompleteBatch? || call.Publish?
  }

  predicate CallProductsMatch(db: Db, call: StockCall) {
    match call
    case Transfer(t) => ProductsMatch(db.published, t)
    case CompleteBatch(_, inputs) => forall t <- inputs :: ProductsMatch(db.published, t)
    case _ => true
  }

  lemma ExecConserves(db: Db, call: StockCall, product: Option<Id>)
    requires WellFormed(db.published) && WellFormed(db.unpublished)
    requires MovesStock(call) && (product.Some? ==> CallProductsMatch(db, call))
    ensures GrandTotal(Exec(db, call), product) == GrandTotal(db, product)
  {
    if Tx(db, call).Success? {
      match call
      case Transfer(t) => TransferConserves(db.published, t, product);
      case CompleteBatch(_, inputs) => BatchTotal(db.published, inputs, product);
      case Publish(op) =>
        var q, u := Tx(db, call).value.published, Tx(db, call).value.unpublished;
        var id := db.published.index[db.unpublished.rows[op.unpublishedId].key];
        TotalUpdate(db.published.rows, product, id, q.rows[id]);
        TotalUpdate(db.unpublished.rows, product, op.unpublishedId, u.rows[op.unpublishedId]);
    }
  }

  lemma CallStaysMatched(db: Db, db1: Db, c: StockCall)
    requires Grows(db.published, db1.published)
    ensures CallProductsMatch(db, c) ==> CallProductsMatch(db1, c)
  {
    if CallProductsMatch(db, c) {
      match c
      case Transfer(t) => ProductsStayMatched(db.published, db1.published, t);
      case CompleteBatch(_, inputs) =>
        forall t <- inputs ensures ProductsMatch(db1.published, t) {
          ProductsStayMatched(db.published, db1.published, t);
        }
      case _ =>
    }
  }

  function ExecAll(db: Db, calls: seq<StockCall>): Db
    decreases |calls|
  {
    if calls == [] then db else ExecAll(Exec(db, calls[0]), calls[1..])
  }

  /** Any run of transfers, transfer batches and publishes, successful or rolled back, keeps the
      published plus unpublished total; and every product's total when the rows' products match. */
  lemma {:induction false} RunConserves(db: Db, calls: seq<StockCall>, product: Option<Id>)
    requires WellFormed(db.published) && WellFormed(db.unpublished)
    requires forall c <- calls :: MovesStock(c) && (product.Some? ==> CallProductsMatch(db, c))
    ensures GrandTotal(ExecAll(db, calls), product) == GrandTotal(db, product)
    decreases |calls|
  {
    if calls != [] {
      var db1 := Exec(db, calls[0]);
      ExecExplained(db, calls[0]);
      ExecConserves(db, calls[0], product);
      forall c <- calls[1..] ensures MovesStock(c) && (product.Some? ==> CallProductsMatch(db1, c)) {
        assert c in calls;
        CallStaysMatched(db, db1, c);
      }
      RunConserves(db1, calls[1..], product);
    }
  }

  // ---- transfer batches ----

  /** What one transfer adds to the row `id`. */
  function Delta(p: Pool, t: TransferOperation, id: RowId): int {
    (if DestinationId(p, t) == id then t.quantity else 0) - (if t.source == id then t.quantity else 0)
  }

  function SumDelta(p: Pool, ts: seq<TransferOperation>, id: RowId): int
    decreases |ts|
  {
    if ts == [] then 0 else SumDelta(p, ts[..|ts| - 1], id) + Delta(p, ts[|ts| - 1], id)
  }

  /** The rows that exist once the destinations of `ts` have been created. */
  function Known(p: Pool, ts: seq<TransferOperation>): set<RowId> {
    p.rows.Keys + set t | t in ts && t.destination.None? :: DestinationId(p, t)
  }

  /** Item `i` finds its rows and does not drive its source row below zero. */
  predicate ItemCovered(p: Pool, ts: seq<TransferOperation>, i: nat)
    requires i < |ts|
  {
    && ts[i].source in Known(p, ts[..i + 1])
    && DestinationId(p, ts[i]) in Known(p, ts[..i + 1])
    && 0 <= QtyOf(p, ts[i].source).onHand + SumDelta(p, ts[..i], ts[i].source) - ts[i].quantity
  }

  predicate Covered(p: Pool, ts: seq<TransferOperation>) {
    forall i :: 0 <= i < |ts| ==> ItemCovered(p, ts, i)
  }

  lemma {:induction false} BatchSnoc(p: Pool, ts: seq<TransferOperation>, t: TransferOperation)
    ensures BatchTx(p, ts + [t])
         == if BatchTx(p, ts).Failure? then BatchTx(p, ts) else TransferTx(BatchTx(p, ts).value, t)
    decreases |ts|
  {
    if ts == [] {
      assert (ts + [t])[1..] == [];
    } else {
      assert (ts + [t])[1..] == ts[1..] + [t];
      if TransferTx(p, ts[0]).Success? {
        BatchSnoc(TransferTx(p, ts[0]).value, ts[1..], t);
      }
    }
  }

  /** The pool after a batch, described without running it. */
  ghost predicate BatchResult(p: Pool, ts: seq<TransferOperation>, q: Pool) {
    && Grows(p, q)
    && q.rows.Keys == Known(p, ts)
    && forall id :: QtyOf(q, id) == Qty(QtyOf(p, id).onHand + SumDelta(p, ts, id), QtyOf(p, id).reserved)
  }

  lemma CoveredSnoc(p: Pool, ts: seq<TransferOperation>)
    requires ts != []
    ensures Covered(p, ts) <==> Covered(p, ts[..|ts| - 1]) && ItemCovered(p, ts, |ts| - 1)
  {
    var init := ts[..|ts| - 1];
    forall i | 0 <= i < |init| ensures ItemCovered(p, init, i) <==> ItemCovered(p, ts, i) {
      assert init[..i] == ts[..i] && init[..i + 1] == ts[..i + 1];
    }
    if Covered(p, init) && ItemCovered(p, ts, |ts| - 1) {
      forall i | 0 <= i < |ts| ensures ItemCovered(p, ts, i) {
        assert i < |init| ==> ItemCovered(p, init, i);
      }
    }
  }

  /** A batch succeeds exactly when no prefix of it drives a source row below zero (and its rows
      exist); the sum of its deltas is then what it adds to each row. */
  lemma {:induction false} BatchSucceedsIffCovered(p: Pool, ts: seq<TransferOperation>)
    requires WellFormed(p)
    ensures BatchTx(p, ts).Success? <==> Covered(p, ts)
    ensures BatchTx(p, ts).Success? ==> BatchResult(p, ts, BatchTx(p, ts).value)
    decreases |ts|
  {
    if ts != [] {
      var n := |ts| - 1;
      var init, t := ts[..n], ts[n];
      assert ts == init + [t];
      BatchSnoc(p, init, t);
      BatchSucceedsIffCovered(p, init);
      CoveredSnoc(p, ts);
      if BatchTx(p, init).Success? {
        var q := BatchTx(p, init).value;
        LastTransferSucceeds(p, ts, q);
        if TransferTx(q, t).Success? {
          LastTransferResult(p, ts, q);
        }
      }
    } else {
      GrowsRefl(p);
    }
  }

  /** A batch is all or nothing: covered, it moves the stock and completes the transfer; otherwise
      rows, movements and the transfer's status stay as they were. */
  lemma BatchAllOrNothing(db: Db, id: Id, inputs: seq<TransferOperation>)
    requires WellFormed(db.published)
    ensures var d := Exec(db, CompleteBatch(id, inputs));
            if Covered(db.published, inputs)
            then BatchResult(db.published, inputs, d.published)
                 && (id in db.transfers ==> d.transfers == db.transfers[id := Completed])
                 && d == db.(published := d.published, transfers := d.transfers)
            else d == db
  {
    var p := db.published;
    BatchSucceedsIffCovered(p, inputs);
    if BatchTx(p, inputs).Success? {
      assert Exec(db, CompleteBatch(id, inputs)).published == BatchTx(p, inputs).value;
    }
  }

  /** The pool after one transfer, described without running it. */
  ghost predicate TransferResult(p: Pool, t: TransferOperation, q: Pool) {
    && Grows(p, q)
    && q.rows.Keys == WithDestination(p, t).rows.Keys
    && forall id :: QtyOf(q, id) == Qty(QtyOf(p, id).onHand + Delta(p, t, id), QtyOf(p, id).reserved)
  }

  lemma TransferEffect(p: Pool, t: TransferOperation)
    requires WellFormed(p) && TransferTx(p, t).Success?
    ensures TransferResult(p, t, TransferTx(p, t).value)
  {
    TransferGrows(p, t);
    TransferQty(p, t, t.source);
    forall id ensures QtyOf(TransferTx(p, t).value, id) == Qty(QtyOf(p, id).onHand + Delta(p, t, id), QtyOf(p, id).reserved) {
      TransferQty(p, t, id);
    }
  }

  lemma TransferQty(p: Pool, t: TransferOperation, id: RowId)
    requires WellFormed(p) && TransferTx(p, t).Success?
    ensures QtyOf(TransferTx(p, t).value, id) == Qty(QtyOf(p, id).onHand + Delta(p, t, id), QtyOf(p, id).reserved)
    ensures TransferTx(p, t).value.rows.Keys == WithDestination(p, t).rows.Keys
  {
    TransferSplit(p, t);
    QtyWithDestination(p, t, id);
  }

  lemma LastTransferSucceeds(p: Pool, ts: seq<TransferOperation>, q: Pool)
    requires ts != [] && WellFormed(p) && BatchResult(p, ts[..|ts| - 1], q)
    ensures TransferTx(q, ts[|ts| - 1]).Success? <==> ItemCovered(p, ts, |ts| - 1)
  {
    var t := ts[|ts| - 1];
    assert ts[..|ts| - 1 + 1] == ts;
    SameDestination(p, q, t);
    KnownSnoc(p, q, ts);
    TransferSplit(q, t);
    QtyWithDestination(q, t, t.source);
  }

  lemma LastTransferResult(p: Pool, ts: seq<TransferOperation>, q: Pool)
    requires ts != [] && WellFormed(p) && BatchResult(p, ts[..|ts| - 1], q)
    requires TransferTx(q, ts[|ts| - 1]).Success?
    ensures BatchResult(p, ts, TransferTx(q, ts[|ts| - 1]).value)
  {
    var t := ts[|ts| - 1];
    SameDestination(p, q, t);
    KnownSnoc(p, q, ts);
    TransferEffect(q, t);
    ResultSnoc(p, ts, q, TransferTx(q, t).value);
  }

  lemma ResultSnoc(p: Pool, ts: seq<TransferOperation>, q: Pool, r: Pool)
    requires ts != [] && BatchResult(p, ts[..|ts| - 1], q) && TransferResult(q, ts[|ts| - 1], r)
    requires DestinationId(q, ts[|ts| - 1]) == DestinationId(p, ts[|ts| - 1]) && r.rows.Keys == Known(p, ts)
    ensures BatchResult(p, ts, r)
  {
    GrowsTrans(p, q, r);
  }

  lemma SameDestination(p: Pool, q: Pool, t: TransferOperation)
    requires Grows(p, q)
    ensures DestinationId(q, t) == DestinationId(p, t)
    ensures RowFor(q, DestinationKey(t)) == RowFor(p, DestinationKey(t))
  {
  }

  lemma QtyWithDestination(p: Pool, t: TransferOperation, id: RowId)
    requires WellFormed(p)
    ensures QtyOf(WithDestination(p, t), id) == QtyOf(p, id)
  {
    WithDestinationGrows(p, t);
  }

  lemma KnownSnoc(p: Pool, q: Pool, ts: seq<TransferOperation>)
    requires ts != [] && q.rows.Keys == Known(p, ts[..|ts| - 1])
    requires RowFor(q, DestinationKey(ts[|ts| - 1])) == RowFor(p, DestinationKey(ts[|ts| - 1]))
    requires WellFormed(q)
    ensures WithDestination(q, ts[|ts| - 1]).rows.Keys == Known(p, ts)
  {
    var init, t := ts[..|ts| - 1], ts[|ts| - 1];
    assert ts == init + [t];
    assert forall u :: u in ts <==> u in init || u == t;
    assert t.destination.None? ==> DestinationId(p, t) == RowFor(q, DestinationKey(t));
    assert t.destination.None? ==> WithDestination(q, t).rows.Keys == q.rows.Keys + {DestinationId(p, t)};
  }

  lemma {:induction false} SumDeltaConcat(p: Pool, a: seq<TransferOperation>, b: seq<TransferOperation>, id: RowId)
    ensures SumDelta(p, a + b, id) == SumDelta(p, a, id) + SumDelta(p, b, id)
    decreases |b|
  {
    if b == [] {
      assert a + b == a;
    } else {
      assert (a + b)[..|a + b| - 1] == a + b[..|b| - 1];
      SumDeltaConcat(p, a, b[..|b| - 1], id);
    }
  }

  lemma PermutationStep<T>(a: seq<T>, b: seq<T>, i: nat)
    requires a != [] && i < |b| && b[i] == a[0] && multiset(a) == multiset(b)
    ensures multiset(a[1..]) == multiset(b[..i] + b[i + 1..])
  {
    assert a == [a[0]] + a[1..] && b == b[..i] + [b[i]] + b[i + 1..];
    assert multiset(a) == multiset{a[0]} + multiset(a[1..]);
    assert multiset(b) == multiset(b[..i]) + multiset{b[i]} + multiset(b[i + 1..]);
    assert multiset(a[1..]) == multiset(a) - multiset{a[0]};
    assert multiset(b[..i] + b[i + 1..]) == multiset(b) - multiset{b[i]};
  }

  lemma SameLength<T>(a: seq<T>, b: seq<T>)
    requires multiset(a) == multiset(b)
    ensures |a| == |b|
  {
    assert |multiset(a)| == |a| && |multiset(b)| == |b|;
  }

  lemma FindFirst<T>(a: seq<T>, b: seq<T>) returns (i: nat)
    requires a != [] && multiset(a) == multiset(b)
    ensures i < |b| && b[i] == a[0] && multiset(a[1..]) == multiset(b[..i] + b[i + 1..])
  {
    assert a[0] in multiset(a) && a[0] in multiset(b);
    i :| 0 <= i < |b| && b[i] == a[0];
    PermutationStep(a, b, i);
  }

  lemma {:induction false} SumDeltaPermutation(p: Pool, a: seq<TransferOperation>, b: seq<TransferOperation>, id: RowId)
    requires multiset(a) == multiset(b)
    ensures SumDelta(p, a, id) == SumDelta(p, b, id)
    decreases |a|
  {
    SameLength(a, b);
    if a != [] {
      var i := FindFirst(a, b);
      SumDeltaPermutation(p, a[1..], b[..i] + b[i + 1..], id);
      SumDeltaSplit(p, a, 0, id);
      SumDeltaSplit(p, b, i, id);
      assert a[..0] + a[1..] == a[1..];
    }
  }

  lemma SumDeltaSplit(p: Pool, ts: seq<TransferOperation>, i: nat, id: RowId)
    requires i < |ts|
    ensures SumDelta(p, ts, id) == Delta(p, ts[i], id) + SumDelta(p, ts[..i] + ts[i + 1..], id)
  {
    SumDeltaConcat(p, ts[..i], ts[i + 1..], id);
    SumDeltaConcat(p, ts[..i + 1], ts[i + 1..], id);
    assert ts[..i + 1] + ts[i + 1..] == ts;
    assert ts[..i + 1][..i] == ts[..i];
  }

  lemma KnownPermutation(p: Pool, a: seq<TransferOperation>, b: seq<TransferOperation>)
    requires multiset(a) == multiset(b)
    ensures Known(p, a) == Known(p, b)
  {
    assert forall t :: t in a <==> t in multiset(a);
    assert forall t :: t in b <==> t in multiset(b);
  }

  /** Two orders of the same batch that both succeed leave exactly the same rows, the rows created
      on the way included. */
  lemma BatchOrderIndependent(p: Pool, a: seq<TransferOperation>, b: seq<TransferOperation>)
    requires WellFormed(p) && multiset(a) == multiset(b)
    requires BatchTx(p, a).Success? && BatchTx(p, b).Success?
    ensures BatchTx(p, a).value.rows == BatchTx(p, b).value.rows
  {
    BatchSucceedsIffCovered(p, a);
    BatchSucceedsIffCovered(p, b);
    SameRows(p, a, b, BatchTx(p, a).value, BatchTx(p, b).value);
  }

  lemma SameRows(p: Pool, a: seq<TransferOperation>, b: seq<TransferOperation>, qa: Pool, qb: Pool)
    requires multiset(a) == multiset(b) && BatchResult(p, a, qa) && BatchResult(p, b, qb)
    ensures qa.rows == qb.rows
  {
    KnownPermutation(p, a, b);
    forall id <- qa.rows ensures qa.rows[id] == qb.rows[id] {
      SumDeltaPermutation(p, a, b, id);
      SameRow(p, qa, qb, id);
    }
  }

  lemma SameRow(p: Pool, qa: Pool, qb: Pool, id: RowId)
    requires Grows(p, qa) && Grows(p, qb) && id in qa.rows && id in qb.rows && QtyOf(qa, id) == QtyOf(qb, id)
    ensures qa.rows[id] == qb.rows[id]
  {
    assert KeyOf(qa, id) == KeyOf(p, id) == KeyOf(qb, id);
  }
}
