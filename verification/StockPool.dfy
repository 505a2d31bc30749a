/** Stock rows with their append-only movement list, and the repository operations on them.
    Published inventory and unpublished stock are two values of the same `Pool` type; an unpublished
    row keeps `reserved == 0`. Quantities are integers in units of 0.0001. */
module StockPool {
  import opened Wrappers

  type Id = nat

  /** The unique (organization, location, product) key of a stock row. */
  datatype Key = Key(organization: Id, location: Id, product: Id)

  /** A row's uuid: one handed out before the model starts, or the one generated when the row
      for `key` was auto-created. Keys are unique, so at most one row is ever created for a key. */
  datatype RowId = Given(n: nat) | Created(key: Key)

  datatype Row = Row(key: Key, onHand: int, reserved: int)

  datatype Kind =
    | StockIn | StockOut | Adjustment | TransferIn | TransferOut
    | Damage | WriteOff | Reserved | ReservationReleased

  /** The descriptive columns of a movement; they never influence a quantity. */
  datatype Meta = Meta(location: Id, product: Id, performedBy: Option<Id>, reference: Option<Id>,
                       referenceType: Option<string>, unitCost: Option<int>, notes: string)

  datatype Movement = Movement(row: RowId, kind: Kind, quantity: int, before: int, after: int, meta: Meta)

  /** `index` is the database's unique index on the row key. */
  datatype Pool = Pool(rows: map<RowId, Row>, index: map<Key, RowId>, movements: seq<Movement>)

  /** A repository call's effect: the pool afterwards and the returned snapshot of the row. */
  datatype Touched = Touched(pool: Pool, row: Row)

  ghost predicate WellFormed(p: Pool) {
    && (forall k <- p.index :: p.index[k] in p.rows && p.rows[p.index[k]].key == k)
    && (forall id <- p.rows :: p.rows[id].key in p.index && p.index[p.rows[id].key] == id)
    && (forall id <- p.rows :: id.Created? ==> p.rows[id].key == id.key)
  }

  function SetRow(p: Pool, id: RowId, row: Row): Touched {
    Touched(p.(rows := p.rows[id := row]), row)
  }

  function AddStock(p: Pool, id: RowId, quantity: int): Result<Touched> {
    if id !in p.rows then Failure(NotFound)
    else Success(SetRow(p, id, p.rows[id].(onHand := p.rows[id].onHand + quantity)))
  }

  /** `removeStockAsync` refuses to touch reserved stock. */
  function RemoveStock(p: Pool, id: RowId, quantity: int): Result<Touched> {
    if id !in p.rows then Failure(NotFound)
    else if quantity > p.rows[id].onHand - p.rows[id].reserved then Failure(BadRequest)
    else Success(SetRow(p, id, p.rows[id].(onHand := p.rows[id].onHand - quantity)))
  }

  /** `deductStockAsync` only compares with the quantity on hand. */
  function DeductStock(p: Pool, id: RowId, quantity: int): Result<Touched> {
    if id !in p.rows then Failure(NotFound)
    else if quantity > p.rows[id].onHand then Failure(BadRequest)
    else Success(SetRow(p, id, p.rows[id].(onHand := p.rows[id].onHand - quantity)))
  }

  function AdjustStock(p: Pool, id: RowId, absolute: int): Result<Touched> {
    if id !in p.rows then Failure(NotFound)
    else Success(SetRow(p, id, p.rows[id].(onHand := absolute)))
  }

  function ReserveStock(p: Pool, id: RowId, quantity: int): Result<Touched> {
    if id !in p.rows then Failure(NotFound)
    else if quantity > p.rows[id].onHand - p.rows[id].reserved then Failure(BadRequest)
    else Success(SetRow(p, id, p.rows[id].(reserved := p.rows[id].reserved + quantity)))
  }

  function ReleaseReservation(p: Pool, id: RowId, quantity: int): Result<Touched> {
    if id !in p.rows then Failure(NotFound)
    else if quantity > p.rows[id].reserved then Failure(BadRequest)
    else Success(SetRow(p, id, p.rows[id].(reserved := p.rows[id].reserved - quantity)))
  }

  /** The row `findOrCreateAsync` returns for `key`. */
  function RowFor(p: Pool, key: Key): RowId {
    if key in p.index then p.index[key] else Created(key)
  }

  function FindOrCreate(p: Pool, key: Key): Pool {
    if key in p.index then p
    else p.(rows := p.rows[Created(key) := Row(key, 0, 0)], index := p.index[key := Created(key)])
  }

  function Record(p: Pool, m: Movement): Pool {
    p.(movements := p.movements + [m])
  }
}
