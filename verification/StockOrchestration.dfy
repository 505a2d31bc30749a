/** The stock operations: their effect on the tables as functions, and the service that performs
    them in place inside a transaction. */
module StockOrchestration {
  import opened Wrappers
  import opened StockPool
  import opened Tables

  datatype StockOperation = StockOperation(inventoryId: RowId, quantity: int, meta: Meta)
  datatype AdjustOperation = AdjustOperation(inventoryId: RowId, absolute: int, meta: Meta)
  datatype AddUnpublishedOperation = AddUnpublishedOperation(
    key: Key, quantity: int, performedBy: Option<Id>, unitCost: Option<int>, notes: string)
  datatype PublishOperation = PublishOperation(
    unpublishedId: RowId, organization: Id, quantity: int, performedBy: Option<Id>, notes: string)
  datatype TransferOperation = TransferOperation(
    source: RowId, destination: Option<RowId>, organization: Id, product: Id, fromLocation: Id, toLocation: Id,
    quantity: int, performedBy: Option<Id>, reference: Option<Id>, notes: string)

  /** One service call. `CommitAdjust` is the transaction of an adjustment whose snapshot was read
      at some earlier moment; `Adjust` reads it right before. */
  datatype StockCall =
    | Add(op: StockOperation) | Remove(op: StockOperation)
    | Adjust(adjust: AdjustOperation) | CommitAdjust(adjust: AdjustOperation, quantityBefore: int)
    | Reserve(op: StockOperation) | Release(op: StockOperation)
    | AddUnpublished(unpublished: AddUnpublishedOperation) | Publish(publish: PublishOperation)
    | DamageOut(op: StockOperation) | WriteOffOut(op: StockOperation)
    | Transfer(transfer: TransferOperation) | CompleteBatch(transferId: Id, inputs: seq<TransferOperation>)

  // ---- the transactions as functions ----

  function AddTx(p: Pool, op: StockOperation): Result<Pool> {
    var t :- AddStock(p, op.inventoryId, op.quantity);
    Success(Record(t.pool, Movement(op.inventoryId, StockIn, op.quantity, t.row.onHand - op.quantity, t.row.onHand, op.meta)))
  }

  function RemoveTx(p: Pool, op: StockOperation): Result<Pool> {
    var t :- RemoveStock(p, op.inventoryId, op.quantity);
    Success(Record(t.pool, Movement(op.inventoryId, StockOut, op.quantity, t.row.onHand + op.quantity, t.row.onHand, op.meta)))
  }

  function AdjustTx(p: Pool, op: AdjustOperation, quantityBefore: int): Result<Pool> {
    var t :- AdjustStock(p, op.inventoryId, op.absolute);
    Success(Record(t.pool, Movement(op.inventoryId, Adjustment, op.absolute, quantityBefore, t.row.onHand, op.meta)))
  }

  function ReserveTx(p: Pool, op: StockOperation): Result<Pool> {
    var t :- ReserveStock(p, op.inventoryId, op.quantity);
    Success(Record(t.pool, Movement(op.inventoryId, Reserved, op.quantity, t.row.reserved - op.quantity, t.row.reserved, op.meta)))
  }

  function ReleaseTx(p: Pool, op: StockOperation): Result<Pool> {
    var t :- ReleaseReservation(p, op.inventoryId, op.quantity);
    Success(Record(t.pool, Movement(op.inventoryId, ReservationReleased, op.quantity, t.row.reserved + op.quantity, t.row.reserved, op.meta)))
  }

  /** Damage and write-off: both deduct from the quantity on hand, reserved or not. */
  function DeductTx(p: Pool, op: StockOperation, kind: Kind): Result<Pool> {
    var t :- DeductStock(p, op.inventoryId, op.quantity);
    Success(Record(t.pool, Movement(op.inventoryId, kind, op.quantity, t.row.onHand + op.quantity, t.row.onHand, op.meta)))
  }

  function AddUnpublishedTx(p: Pool, op: AddUnpublishedOperation): Result<Pool> {
    var p1, id := FindOrCreate(p, op.key), RowFor(p, op.key);
    if id !in p1.rows then Failure(NotFound) else
    var before := p1.rows[id].onHand;
    var t :- AddStock(p1, id, op.quantity);
    var meta := Meta(op.key.location, op.key.product, op.performedBy, None, None, op.unitCost, op.notes);
    Success(Record(t.pool, Movement(id, StockIn, op.quantity, before, t.row.onHand, meta)))
  }

  function PublishTx(db: Db, op: PublishOperation): Result<Db> {
    if op.unpublishedId !in db.unpublished.rows then Failure(NotFound) else
    var unp := db.unpublished.rows[op.unpublishedId];
    if unp.key.organization != op.organization then Failure(NotFound)
    else if op.quantity > unp.onHand then Failure(BadRequest)
    else if unp.key !in db.published.index then Failure(BadRequest) else
    var id := db.published.index[unp.key];
    if id !in db.published.rows then Failure(NotFound) else
    var invBefore := db.published.rows[id].onHand;
    var u :- DeductStock(db.unpublished, op.unpublishedId, op.quantity);
    var v :- AddStock(db.published, id, op.quantity);
    var meta := Meta(unp.key.location, unp.key.product, op.performedBy, None, None, None, op.notes);
    Success(db.(
      unpublished := Record(u.pool, Movement(op.unpublishedId, TransferOut, op.quantity, unp.onHand, u.row.onHand, meta)),
      published := Record(v.pool, Movement(id, StockIn, op.quantity, invBefore, v.row.onHand, meta))))
  }

  function DestinationKey(t: TransferOperation): Key {
    Key(t.organization, t.toLocation, t.product)
  }

  function DestinationId(p: Pool, t: TransferOperation): RowId {
    if t.destination.Some? then t.destination.value else RowFor(p, DestinationKey(t))
  }

  function WithDestination(p: Pool, t: TransferOperation): Pool {
    if t.destination.Some? then p else FindOrCreate(p, DestinationKey(t))
  }

  function SourceMeta(t: TransferOperation): Meta {
    Meta(t.fromLocation, t.product, t.performedBy, t.reference, None, None, t.notes)
  }

  function DestinationMeta(t: TransferOperation): Meta {
    Meta(t.toLocation, t.product, t.performedBy, t.reference, None, None, t.notes)
  }

  /** `runTransferWithManager` */
  function TransferTx(p: Pool, t: TransferOperation): Result<Pool> {
    var to := DestinationId(p, t);
    var src :- DeductStock(WithDestination(p, t), t.source, t.quantity);
    var dest :- AddStock(src.pool, to, t.quantity);
    var out := Movement(t.source, TransferOut, t.quantity, src.row.onHand + t.quantity, src.row.onHand, SourceMeta(t));
    var into := Movement(to, TransferIn, t.quantity, dest.row.onHand - t.quantity, dest.row.onHand, DestinationMeta(t));
    Success(Record(Record(dest.pool, out), into))
  }

  function BatchTx(p: Pool, inputs: seq<TransferOperation>): Result<Pool>
    decreases |inputs|
  {
    if inputs == [] then Success(p) else
    var p1 :- TransferTx(p, inputs[0]);
    BatchTx(p1, inputs[1..])
  }

  function OnPublished(db: Db, r: Result<Pool>): Result<Db> {
    var p :- r; Success(db.(published := p))
  }

  /** The transaction a call runs; a failure rolls it back. */
  function Tx(db: Db, call: StockCall): Result<Db> {
    match call
    case Add(op) => OnPublished(db, AddTx(db.published, op))
    case Remove(op) => OnPublished(db, RemoveTx(db.published, op))
    case Adjust(op) =>
      if op.inventoryId !in db.published.rows then Failure(NotFound)
      else OnPublished(db, AdjustTx(db.published, op, db.published.rows[op.inventoryId].onHand))
    case CommitAdjust(op, before) => OnPublished(db, AdjustTx(db.published, op, before))
    case Reserve(op) => OnPublished(db, ReserveTx(db.published, op))
    case Release(op) => OnPublished(db, ReleaseTx(db.published, op))
    case AddUnpublished(op) => (var p :- AddUnpublishedTx(db.unpublished, op); Success(db.(unpublished := p)))
    case Publish(op) => PublishTx(db, op)
    case DamageOut(op) => OnPublished(db, DeductTx(db.published, op, Damage))
    case WriteOffOut(op) => OnPublished(db, DeductTx(db.published, op, WriteOff))
    case Transfer(t) => OnPublished(db, TransferTx(db.published, t))
    case CompleteBatch(id, inputs) =>
      var p :- BatchTx(db.published, inputs);
      Success(db.(published := p,
                  transfers := if id in db.transfers then db.transfers[id := Completed] else db.transfers))
  }

  function Commit(db: Db, r: Result<Db>): Db {
    if r.Success? then r.value else db
  }

  function Exec(db: Db, call: StockCall): Db {
    Commit(db, Tx(db, call))
  }

  function Done<T>(r: Result<T>): Result<()> {
    if r.Success? then Success(()) else Failure(r.error)
  }

  // ---- the service ----

  class StockOrchestrationService {
    const db: Database

    constructor (db: Database)
      ensures this.db == db
    {
      this.db := db;
    }

    method AddStock(input: StockOperation) returns (r: Result<()>)
      requires db.Valid()
      modifies db.Repr()
      ensures db.State() == Exec(old(db.State()), Add(input)) && r == Done(Tx(old(db.State()), Add(input)))
    {
      var touched := db.published.AddStock(input.inventoryId, input.quantity);
      if touched.Failure? { return Failure(touched.error); }
      var inv := touched.value;
      var before := inv.onHand - input.quantity;
      db.published.CreateMovement(Movement(input.inventoryId, StockIn, input.quantity, before, inv.onHand, input.meta));
      return Success(());
    }

    method RemoveStock(input: StockOperation) returns (r: Result<()>)
      requires db.Valid()
      modifies db.Repr()
      ensures db.State() == Exec(old(db.State()), Remove(input)) && r == Done(Tx(old(db.State()), Remove(input)))
    {
      var touched := db.published.RemoveStock(input.inventoryId, input.quantity);
      if touched.Failure? { return Failure(touched.error); }
      var inv := touched.value;
      var before := inv.onHand + input.quantity;
      db.published.CreateMovement(Movement(input.inventoryId, StockOut, input.quantity, before, inv.onHand, input.meta));
      return Success(());
    }

    /** The read in front of the adjustment's transaction. */
    method ReadQuantity(id: RowId) returns (r: Result<int>)
      ensures r == if id in db.published.rows then Success(db.published.rows[id].onHand) else Failure(NotFound)
    {
      if id !in db.published.rows { return Failure(NotFound); }
      return Success(db.published.rows[id].onHand);
    }

    /** The adjustment's transaction, run with the quantity read earlier. */
    method CommitAdjustment(input: AdjustOperation, quantityBefore: int) returns (r: Result<()>)
      requires db.Valid()
      modifies db.Repr()
      ensures db.State() == Exec(old(db.State()), CommitAdjust(input, quantityBefore))
      ensures r == Done(Tx(old(db.State()), CommitAdjust(input, quantityBefore)))
    {
      var touched := db.published.AdjustStock(input.inventoryId, input.absolute);
      if touched.Failure? { return Failure(touched.error); }
      var inv := touched.value;
      db.published.CreateMovement(Movement(input.inventoryId, Adjustment, input.absolute, quantityBefore, inv.onHand, input.meta));
      return Success(());
    }

    method AdjustStock(input: AdjustOperation) returns (r: Result<()>)
      requires db.Valid()
      modifies db.Repr()
      ensures db.State() == Exec(old(db.State()), Adjust(input)) && r == Done(Tx(old(db.State()), Adjust(input)))
    {
      var snapshot := ReadQuantity(input.inventoryId);
      if snapshot.Failure? { return Failure(snapshot.error); }
      r := CommitAdjustment(input, snapshot.value);
    }

    method ReserveStock(input: StockOperation) returns (r: Result<()>)
      requires db.Valid()
      modifies db.Repr()
      ensures db.State() == Exec(old(db.State()), Reserve(input)) && r == Done(Tx(old(db.State()), Reserve(input)))
    {
      var touched := db.published.ReserveStock(input.inventoryId, input.quantity);
      if touched.Failure? { return Failure(touched.error); }
      var inv := touched.value;
      var before := inv.reserved - input.quantity;
      db.published.CreateMovement(Movement(input.inventoryId, Reserved, input.quantity, before, inv.reserved, input.meta));
      return Success(());
    }

    method ReleaseReservation(input: StockOperation) returns (r: Result<()>)
      requires db.Valid()
      modifies db.Repr()
      ensures db.State() == Exec(old(db.State()), Release(input)) && r == Done(Tx(old(db.State()), Release(input)))
    {
      var touched := db.published.ReleaseReservation(input.inventoryId, input.quantity);
      if touched.Failure? { return Failure(touched.error); }
      var inv := touched.value;
      var before := inv.reserved + input.quantity;
      db.published.CreateMovement(Movement(input.inventoryId, ReservationReleased, input.quantity, before, inv.reserved, input.meta));
      return Success(());
    }

    method AddUnpublishedStock(input: AddUnpublishedOperation) returns (r: Result<()>)
      requires db.Valid()
      modifies db.Repr()
      ensures db.State() == Exec(old(db.State()), AddUnpublished(input))
      ensures r == Done(Tx(old(db.State()), AddUnpublished(input)))
    {
      var savepoint := db.State();
      var id := db.unpublished.FindOrCreate(input.key);
      if id !in db.unpublished.rows {
        db.Rollback(savepoint);
        return Failure(NotFound);
      }
      var before := db.unpublished.rows[id].onHand;
      var updated := db.unpublished.AddStock(id, input.quantity);
      var meta := Meta(input.key.location, input.key.product, input.performedBy, None, None, input.unitCost, input.notes);
      db.unpublished.CreateMovement(Movement(id, StockIn, input.quantity, before, updated.value.onHand, meta));
      return Success(());
    }

    method PublishStock(input: PublishOperation) returns (r: Result<()>)
      requires db.Valid()
      modifies db.Repr()
      ensures db.State() == Exec(old(db.State()), Publish(input)) && r == Done(Tx(old(db.State()), Publish(input)))
    {
      if input.unpublishedId !in db.unpublished.rows { return Failure(NotFound); }
      var unp := db.unpublished.rows[input.unpublishedId];
      if unp.key.organization != input.organization { return Failure(NotFound); }
      if input.quantity > unp.onHand { return Failure(BadRequest); }
      if unp.key !in db.published.index { return Failure(BadRequest); }
      var id := db.published.index[unp.key];
      if id !in db.published.rows { return Failure(NotFound); }
      var invBefore := db.published.rows[id].onHand;
      var updatedUnp := db.unpublished.DeductStock(input.unpublishedId, input.quantity);
      var updatedInv := db.published.AddStock(id, input.quantity);
      var meta := Meta(unp.key.location, unp.key.product, input.performedBy, None, None, None, input.notes);
      db.unpublished.CreateMovement(
        Movement(input.unpublishedId, TransferOut, input.quantity, unp.onHand, updatedUnp.value.onHand, meta));
      db.published.CreateMovement(Movement(id, StockIn, input.quantity, invBefore, updatedInv.value.onHand, meta));
      return Success(());
    }

    method DamageStock(input: StockOperation) returns (r: Result<()>)
      requires db.Valid()
      modifies db.Repr()
      ensures db.State() == Exec(old(db.State()), DamageOut(input)) && r == Done(Tx(old(db.State()), DamageOut(input)))
    {
      var touched := db.published.DeductStock(input.inventoryId, input.quantity);
      if touched.Failure? { return Failure(touched.error); }
      var inv := touched.value;
      var before := inv.onHand + input.quantity;
      db.published.CreateMovement(Movement(input.inventoryId, Damage, input.quantity, before, inv.onHand, input.meta));
      return Success(());
    }

    method WriteOffStock(input: StockOperation) returns (r: Result<()>)
      requires db.Valid()
      modifies db.Repr()
      ensures db.State() == Exec(old(db.State()), WriteOffOut(input)) && r == Done(Tx(old(db.State()), WriteOffOut(input)))
    {
      var touched := db.published.DeductStock(input.inventoryId, input.quantity);
      if touched.Failure? { return Failure(touched.error); }
      var inv := touched.value;
      var before := inv.onHand + input.quantity;
      db.published.CreateMovement(Movement(input.inventoryId, WriteOff, input.quantity, before, inv.onHand, input.meta));
      return Success(());
    }

    /** Works inside the caller's transaction: after a failure the caller rolls back. */
    method RunTransfer(input: TransferOperation) returns (r: Result<()>)
      modifies db.published
      ensures r == Done(TransferTx(old(db.published.View()), input))
      ensures r.Success? ==> db.published.View() == TransferTx(old(db.published.View()), input).value
    {
      var toInventoryId;
      if input.destination.Some? {
        toInventoryId := input.destination.value;
      } else {
        toInventoryId := db.published.FindOrCreate(DestinationKey(input));
      }
      var src := db.published.DeductStock(input.source, input.quantity);
      if src.Failure? { return Failure(src.error); }
      var dest := db.published.AddStock(toInventoryId, input.quantity);
      if dest.Failure? { return Failure(dest.error); }
      db.published.CreateMovement(Movement(input.source, TransferOut, input.quantity,
                                           src.value.onHand + input.quantity, src.value.onHand, SourceMeta(input)));
      db.published.CreateMovement(Movement(toInventoryId, TransferIn, input.quantity,
                                           dest.value.onHand - input.quantity, dest.value.onHand, DestinationMeta(input)));
      return Success(());
    }

    method TransferStock(input: TransferOperation) returns (r: Result<()>)
      requires db.Valid()
      modifies db.Repr()
      ensures db.State() == Exec(old(db.State()), Transfer(input)) && r == Done(Tx(old(db.State()), Transfer(input)))
    {
      var savepoint := db.State();
      r := RunTransfer(input);
      if r.Failure? { db.Rollback(savepoint); }
    }

    method CompleteTransferBatch(transferId: Id, inputs: seq<TransferOperation>) returns (r: Result<()>)
      requires db.Valid()
      modifies db.Repr()
      ensures db.State() == Exec(old(db.State()), CompleteBatch(transferId, inputs))
      ensures r == Done(Tx(old(db.State()), CompleteBatch(transferId, inputs)))
    {
      var savepoint := db.State();
      var i := 0;
      assert inputs[0..] == inputs;
      while i < |inputs|
        invariant 0 <= i <= |inputs|
        invariant db.State() == savepoint.(published := db.published.View())
        invariant BatchTx(savepoint.published, inputs) == BatchTx(db.published.View(), inputs[i..])
      {
        assert inputs[i..][1..] == inputs[i + 1..];
        r := RunTransfer(inputs[i]);
        if r.Failure? {
          db.Rollback(savepoint);
          return;
        }
        i := i + 1;
      }
      if transferId in db.transfers {
        db.transfers := db.transfers[transferId := Completed];
      }
      return Success(());
    }
  }
}
