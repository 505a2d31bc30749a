/** The tables the services share: `Db` is their value, `Database` the store that is updated in place. */
module Tables {
  import opened Wrappers
  import opened StockPool

  datatype TransferStatus = Pending | Completed | Cancelled
  datatype SaleType = Normal | Credit | Black
  datatype BillStatus = Initiated | Draft | Closed | Voided
  datatype CustomerType = Regular | New | Shop | BigCustomer
  datatype Timing = BeforeDelivery | AfterDelivery | Half | Cod
  datatype ApprovalStatus = Requested | Approved | Rejected

  datatype BillItem = BillItem(product: Id, quantity: int)

  /** `Closed` is the source's COMPLETED and `Voided` its CANCELLED status. Amounts are integers
      in units of 0.0001. */
  datatype Bill = Bill(
    id: Id, number: string, organization: Id, location: Id, customer: Option<Id>, items: seq<BillItem>,
    saleType: SaleType, customerType: Option<CustomerType>, total: int, timing: Option<Timing>,
    partial: Option<int>, facilitatorUser: Option<Id>, facilitatorName: string, commission: int,
    status: BillStatus, billedAt: Option<int>, paymentMethod: Option<string>)

  datatype Customer = Customer(limit: Option<int>, balance: int, customerType: Option<CustomerType>, skipApproval: Option<bool>)

  datatype CreditTxn = CreditTxn(customer: Id, bill: Id, amount: int, before: int, after: int, performedBy: Id)
  datatype Approval = Approval(organization: Id, customer: Id, bill: Id, amount: int, requestedBy: Id, status: ApprovalStatus)
  datatype Commission = Commission(organization: Id, bill: Id, facilitatorUser: Option<Id>, facilitatorName: string, amount: int)
  datatype Payment = Payment(reference: Id, referenceType: string, status: string, amount: int)
  datatype Order = Order(total: int, paymentStatus: string)

  /** An approval request's id is its position. `billOfOrder` is the bill row of an order. A deleted bill
      keeps its row, but no query returns it. */
  datatype Db = Db(
    published: Pool, unpublished: Pool, transfers: map<Id, TransferStatus>,
    bills: map<Id, Bill>, customers: map<Id, Customer>, typeRules: map<(Id, CustomerType), bool>,
    creditTxns: seq<CreditTxn>, approvals: seq<Approval>, commissions: seq<Commission>,
    payments: seq<Payment>, orders: map<Id, Order>, billOfOrder: map<Id, Id>, deletedBills: set<Id>)

  /** One pool of stock. The methods are the repository calls made inside a transaction: they
      update the row in place and return a snapshot of it. */
  class StockTable {
    var rows: map<RowId, Row>
    var index: map<Key, RowId>
    var movements: seq<Movement>

    function View(): Pool
      reads this
    {
      Pool(rows, index, movements)
    }

    method Restore(p: Pool)
      modifies this
      ensures View() == p
    {
      rows, index, movements := p.rows, p.index, p.movements;
    }

    method AddStock(id: RowId, quantity: int) returns (r: Result<Row>)
      modifies this
      ensures View() == After(old(View()), StockPool.AddStock(old(View()), id, quantity))
      ensures r == Snapshot(StockPool.AddStock(old(View()), id, quantity))
    {
      if id !in rows { return Failure(NotFound); }
      var row := rows[id].(onHand := rows[id].onHand + quantity);
      rows := rows[id := row];
      return Success(row);
    }

    method RemoveStock(id: RowId, quantity: int) returns (r: Result<Row>)
      modifies this
      ensures View() == After(old(View()), StockPool.RemoveStock(old(View()), id, quantity))
      ensures r == Snapshot(StockPool.RemoveStock(old(View()), id, quantity))
    {
      if id !in rows { return Failure(NotFound); }
      var available := rows[id].onHand - rows[id].reserved;
      if quantity > available { return Failure(BadRequest); }
      var row := rows[id].(onHand := rows[id].onHand - quantity);
      rows := rows[id := row];
      return Success(row);
    }

    method AdjustStock(id: RowId, absolute: int) returns (r: Result<Row>)
      modifies this
      ensures View() == After(old(View()), StockPool.AdjustStock(old(View()), id, absolute))
      ensures r == Snapshot(StockPool.AdjustStock(old(View()), id, absolute))
    {
      if id !in rows { return Failure(NotFound); }
      var row := rows[id].(onHand := absolute);
      rows := rows[id := row];
      return Success(row);
    }

    method ReserveStock(id: RowId, quantity: int) returns (r: Result<Row>)
      modifies this
      ensures View() == After(old(View()), StockPool.ReserveStock(old(View()), id, quantity))
      ensures r == Snapshot(StockPool.ReserveStock(old(View()), id, quantity))
    {
      if id !in rows { return Failure(NotFound); }
      var available := rows[id].onHand - rows[id].reserved;
      if quantity > available { return Failure(BadRequest); }
      var row := rows[id].(reserved := rows[id].reserved + quantity);
      rows := rows[id := row];
      return Success(row);
    }

    method ReleaseReservation(id: RowId, quantity: int) returns (r: Result<Row>)
      modifies this
      ensures View() == After(old(View()), StockPool.ReleaseReservation(old(View()), id, quantity))
      ensures r == Snapshot(StockPool.ReleaseReservation(old(View()), id, quantity))
    {
      if id !in rows { return Failure(NotFound); }
      var current := rows[id].reserved;
      if quantity > current { return Failure(BadRequest); }
      var row := rows[id].(reserved := current - quantity);
      rows := rows[id := row];
      return Success(row);
    }

    method DeductStock(id: RowId, quantity: int) returns (r: Result<Row>)
      modifies this
      ensures View() == After(old(View()), StockPool.DeductStock(old(View()), id, quantity))
      ensures r == Snapshot(StockPool.DeductStock(old(View()), id, quantity))
    {
      if id !in rows { return Failure(NotFound); }
      var onHand := rows[id].onHand;
      if quantity > onHand { return Failure(BadRequest); }
      var row := rows[id].(onHand := onHand - quantity);
      rows := rows[id := row];
      return Success(row);
    }

    method FindOrCreate(key: Key) returns (id: RowId)
      modifies this
      ensures View() == StockPool.FindOrCreate(old(View()), key)
      ensures id == RowFor(old(View()), key)
    {
      if key in index { return index[key]; }
      id := Created(key);
      rows, index := rows[id := Row(key, 0, 0)], index[key := id];
    }

    method CreateMovement(m: Movement)
      modifies this
      ensures View() == Record(old(View()), m)
    {
      movements := movements + [m];
    }
  }

  function After(p: Pool, r: Result<Touched>): Pool {
    if r.Success? then r.value.pool else p
  }

  function Snapshot(r: Result<Touched>): Result<Row> {
    if r.Success? then Success(r.value.row) else Failure(r.error)
  }

  class Database {
    const published: StockTable
    const unpublished: StockTable
    var transfers: map<Id, TransferStatus>
    var bills: map<Id, Bill>
    var customers: map<Id, Customer>
    var typeRules: map<(Id, CustomerType), bool>
    var creditTxns: seq<CreditTxn>
    var approvals: seq<Approval>
    var commissions: seq<Commission>
    var payments: seq<Payment>
    var orders: map<Id, Order>
    var billOfOrder: map<Id, Id>
    var deletedBills: set<Id>

    constructor ()
      ensures Valid() && fresh(published) && fresh(unpublished)
    {
      published, unpublished := new StockTable, new StockTable;
    }

    ghost predicate Valid() {
      published != unpublished
    }

    ghost function Repr(): set<object> {
      {this, published, unpublished}
    }

    function State(): Db
      reads this, published, unpublished
    {
      Db(published.View(), unpublished.View(), transfers, bills, customers, typeRules,
         creditTxns, approvals, commissions, payments, orders, billOfOrder, deletedBills)
    }

    /** ROLLBACK: discards what a transaction did to the stock tables. */
    method Rollback(savepoint: Db)
      requires Valid()
      modifies published, unpublished
      ensures State() == old(State()).(published := savepoint.published, unpublished := savepoint.unpublished)
    {
      published.Restore(savepoint.published);
      unpublished.Restore(savepoint.unpublished);
    }
  }
}
