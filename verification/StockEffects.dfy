/** What the stock calls and the sale do to rows and movements, column by column, and how they fail. */
module StockEffects {
  import opened Wrappers
  import opened StockPool
  import opened Ledger
  import opened Tables
  import opened StockOrchestration
  import opened StockProofs
  import opened BillCompletion
  import opened Isolation

  /** In the pool, one row's quantity on hand has changed by `change`, and no other quantity; one movement
      has been added. */
  ghost predicate Shifted(p: Pool, q: Pool, id: RowId, change: int, m: Movement) {
    && q.movements == p.movements + [m]
    && (forall i :: QtyOf(q, i) == if i == id then Qty(QtyOf(p, i).onHand + change, QtyOf(p, i).reserved) else QtyOf(p, i))
    && (forall i <- p.rows :: i in q.rows && q.rows[i].key == p.rows[i].key)
  }

  // ---- publishing ----

  /** The published row with the key of an unpublished one. */
  predicate Matches(db: Db, from: RowId, to: RowId) {
    && from in db.unpublished.rows && to in db.published.rows
    && db.published.rows[to].key == db.unpublished.rows[from].key
  }

  /** The request names a row of the organization, asks for no more than that has, and there is a
      published row to add to. */
  ghost predicate Publishable(db: Db, op: PublishOperation) {
    && op.unpublishedId in db.unpublished.rows
    && db.unpublished.rows[op.unpublishedId].key.organization == op.organization
    && op.quantity <= db.unpublished.rows[op.unpublishedId].onHand
    && exists to :: Matches(db, op.unpublishedId, to)
  }

  ghost predicate PublishedTo(db: Db, d: Db, op: PublishOperation, to: RowId)
    requires Matches(db, op.unpublishedId, to)
  {
    var from, key := op.unpublishedId, db.published.rows[to].key;
    var meta := Meta(key.location, key.product, op.performedBy, None, None, None, op.notes);
    var had, has := db.unpublished.rows[from].onHand, db.published.rows[to].onHand;
    && Shifted(db.unpublished, d.unpublished, from, -op.quantity,
               Movement(from, TransferOut, op.quantity, had, had - op.quantity, meta))
    && Shifted(db.published, d.published, to, op.quantity,
               Movement(to, StockIn, op.quantity, has, has + op.quantity, meta))
    && d.unpublished.rows.Keys == db.unpublished.rows.Keys && d.published.rows.Keys == db.published.rows.Keys
    && d == db.(published := d.published, unpublished := d.unpublished)
  }

  lemma PublishMoves(db: Db, op: PublishOperation, to: RowId)
    requires PoolsWellFormed(db) && Publishable(db, op) && Matches(db, op.unpublishedId, to)
    ensures Tx(db, Publish(op)).Success? && PublishedTo(db, Exec(db, Publish(op)), op, to)
  {
    assert db.published.index[db.published.rows[to].key] == to;
    var d := Exec(db, Publish(op));
    assert d.published.rows == db.published.rows[to := d.published.rows[to]];
    assert d.unpublished.rows == db.unpublished.rows[op.unpublishedId := d.unpublished.rows[op.unpublishedId]];
  }

  lemma PublishFails(db: Db, op: PublishOperation)
    requires PoolsWellFormed(db) && !Publishable(db, op)
    ensures var row := op.unpublishedId;
            Tx(db, Publish(op)) == Failure(
              if row in db.unpublished.rows && db.unpublished.rows[row].key.organization == op.organization
              then BadRequest else NotFound)
  {
    var from := op.unpublishedId;
    if from in db.unpublished.rows && db.unpublished.rows[from].key in db.published.index {
      assert Matches(db, from, db.published.index[db.unpublished.rows[from].key]);
    }
  }

  /** Publishing goes through exactly when it may. It then moves exactly the quantity from the
      unpublished row to the published row of the same key, and records one movement of it in each pool;
      otherwise nothing changes. */
  lemma PublishIff(db: Db, op: PublishOperation)
    requires PoolsWellFormed(db)
    ensures Tx(db, Publish(op)).Success? <==> Publishable(db, op)
    ensures !Publishable(db, op) ==> Exec(db, Publish(op)) == db
    ensures Publishable(db, op) ==>
              forall to :: Matches(db, op.unpublishedId, to) ==> PublishedTo(db, Exec(db, Publish(op)), op, to)
  {
    if Publishable(db, op) {
      forall to | Matches(db, op.unpublishedId, to)
        ensures Tx(db, Publish(op)).Success? && PublishedTo(db, Exec(db, Publish(op)), op, to)
      {
        PublishMoves(db, op, to);
      }
    } else {
      PublishFails(db, op);
    }
  }

  // ---- adding unpublished stock ----

  lemma AddedToRow(p: Pool, op: AddUnpublishedOperation, id: RowId)
    requires WellFormed(p) && id == RowFor(p, op.key)
    ensures AddUnpublishedTx(p, op).Success?
    ensures var q, had := AddUnpublishedTx(p, op).value, QtyOf(p, id).onHand;
            var meta := Meta(op.key.location, op.key.product, op.performedBy, None, None, op.unitCost, op.notes);
            && q.rows.Keys == p.rows.Keys + {id} && q.rows[id].key == op.key
            && Shifted(p, q, id, op.quantity, Movement(id, StockIn, op.quantity, had, had + op.quantity, meta))
  {
    FindOrCreateGrows(p, op.key);
    var q := AddUnpublishedTx(p, op).value;
    assert q.rows == FindOrCreate(p, op.key).rows[id := q.rows[id]];
  }

  /** Adding unpublished stock always goes through. It adds exactly the quantity to the one row of the
      key, which counts as empty where there was none, and records one movement of it. */
  lemma AddUnpublishedAdds(db: Db, op: AddUnpublishedOperation) returns (id: RowId)
    requires PoolsWellFormed(db)
    ensures var d, had := Exec(db, AddUnpublished(op)), QtyOf(db.unpublished, id).onHand;
            var meta := Meta(op.key.location, op.key.product, op.performedBy, None, None, op.unitCost, op.notes);
            && Tx(db, AddUnpublished(op)).Success?
            && (forall i <- db.unpublished.rows :: db.unpublished.rows[i].key == op.key ==> i == id)
            && d.unpublished.rows.Keys == db.unpublished.rows.Keys + {id} && d.unpublished.rows[id].key == op.key
            && Shifted(db.unpublished, d.unpublished, id, op.quantity,
                       Movement(id, StockIn, op.quantity, had, had + op.quantity, meta))
            && d == db.(unpublished := d.unpublished)
  {
    id := RowFor(db.unpublished, op.key);
    AddedToRow(db.unpublished, op, id);
    assert Exec(db, AddUnpublished(op)) == db.(unpublished := AddUnpublishedTx(db.unpublished, op).value);
  }

  // ---- how the other calls fail ----

  /** A call on one row fails for want of the row, or else for want of quantity. */
  lemma SingleCallFails(db: Db, call: StockCall, row: RowId)
    requires match call
             case Add(op) => row == op.inventoryId
             case Remove(op) => row == op.inventoryId
             case Adjust(op) => row == op.inventoryId
             case CommitAdjust(op, _) => row == op.inventoryId
             case Reserve(op) => row == op.inventoryId
             case Release(op) => row == op.inventoryId
             case DamageOut(op) => row == op.inventoryId
             case WriteOffOut(op) => row == op.inventoryId
             case _ => false
    ensures Tx(db, call).Failure? ==> Tx(db, call).error == if row in db.published.rows then BadRequest else NotFound
  {
  }

  /** The rows there are once the destination has been created. */
  function RowsFor(p: Pool, t: TransferOperation): set<RowId> {
    p.rows.Keys + (if t.destination.None? then {RowFor(p, Key(t.organization, t.toLocation, t.product))} else {})
  }

  /** A transfer finds its rows and enough on hand, or fails; it records both sides, each under its own
      location. */
  lemma TransferOutcome(p: Pool, t: TransferOperation)
    requires WellFormed(p)
    ensures var tx, key := TransferTx(p, t), Key(t.organization, t.toLocation, t.product);
            var to := if t.destination.Some? then t.destination.value else RowFor(p, key);
            if t.source !in RowsFor(p, t) then tx == Failure(NotFound)
            else if t.quantity > QtyOf(p, t.source).onHand then tx == Failure(BadRequest)
            else if to !in RowsFor(p, t) then tx == Failure(NotFound)
            else
              && tx.Success? && |tx.value.movements| == |p.movements| + 2 && p.movements <= tx.value.movements
              && IsRecord(tx.value.movements[|p.movements|], t.source, TransferOut, t, t.fromLocation)
              && IsRecord(tx.value.movements[|p.movements| + 1], to, TransferIn, t, t.toLocation)
  {
  }

  predicate IsRecord(m: Movement, row: RowId, kind: Kind, t: TransferOperation, location: Id) {
    && m.row == row && m.kind == kind && m.quantity == t.quantity
    && m.meta == Meta(location, t.product, t.performedBy, t.reference, None, None, t.notes)
  }

  // ---- what a sale records ----

  /** The movement of one line, whatever row it is posted to. An official sale names the bill, a black one only
      its number. */
  predicate IsLineRecord(m: Movement, bill: Bill, item: BillItem, user: Id) {
    && m.kind.StockOut? && m.quantity == item.quantity
    && m.meta.location == bill.location && m.meta.product == item.product
    && m.meta.performedBy == Some(user) && m.meta.unitCost == None
    && (if bill.saleType.Black?
        then m.meta.reference == None && m.meta.referenceType == None && m.meta.notes == "Black sale " + bill.number
        else m.meta.reference == Some(bill.id) && m.meta.referenceType == Some("bill") && m.meta.notes == "Sale " + bill.number)
  }

  lemma {:induction false} LinesRecorded(p: Pool, bill: Bill, items: seq<BillItem>, user: Id)
    requires LinesTx(p, bill, items, user).Success?
    ensures var q := LinesTx(p, bill, items, user).value;
            && |q.movements| == |p.movements| + |items|
            && forall j :: 0 <= j < |items| ==> IsLineRecord(q.movements[|p.movements| + j], bill, items[j], user)
    decreases |items|
  {
    if items != [] {
      var p1 := LineTx(p, bill, items[0], user).value;
      var q := LinesTx(p, bill, items, user).value;
      LinesRecorded(p1, bill, items[1..], user);
      LinesAppend(p1, bill, items[1..], user);
      assert IsLineRecord(p1.movements[|p.movements|], bill, items[0], user);
      forall j | 0 <= j < |items| ensures IsLineRecord(q.movements[|p.movements| + j], bill, items[j], user) {
        if j > 0 {
          assert IsLineRecord(q.movements[|p1.movements| + (j - 1)], bill, items[1..][j - 1], user);
        }
      }
    }
  }

  /** Whatever a sale lacks, row or quantity, it is a bad request. */
  lemma {:induction false} LinesFail(p: Pool, bill: Bill, items: seq<BillItem>, user: Id)
    ensures LinesTx(p, bill, items, user).Failure? ==> LinesTx(p, bill, items, user).error == BadRequest
    decreases |items|
  {
    if items != [] && LineTx(p, bill, items[0], user).Success? {
      LinesFail(LineTx(p, bill, items[0], user).value, bill, items[1..], user);
    }
  }

  // ---- a publish that has read its row before ----

  /** The first read of the unpublished row decides as well: if that was less than is asked for, the
      publish fails, whatever the row holds now. */
  lemma OutdatedReadRefuses(db: Db, op: PublishOperation, copies: Copies)
    requires op.unpublishedId in copies.firstUnpublished && copies.firstUnpublished[op.unpublishedId] < op.quantity
    ensures ExecOn(db, Publish(op), copies) == db
  {
  }
}
