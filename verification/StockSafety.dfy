/** What each call posts, and that no run drives a quantity below zero. */
module StockSafety {
  import opened Wrappers
  import opened StockPool
  import opened Tables
  import opened StockOrchestration
  import opened StockProofs
  import opened BillCompletion
  import opened Runs
  import opened Isolation
  import opened Interleaving

  // ---- what one call records, and when it goes through ----

  /** What a call on one row writes into its movement. */
  datatype Posting = Posting(row: RowId, kind: Kind, quantity: int, meta: Meta)

  function PostingOf(call: StockCall): Option<Posting> {
    match call
    case Add(op) => Some(Posting(op.inventoryId, StockIn, op.quantity, op.meta))
    case Remove(op) => Some(Posting(op.inventoryId, StockOut, op.quantity, op.meta))
    case Adjust(op) => Some(Posting(op.inventoryId, Adjustment, op.absolute, op.meta))
    case CommitAdjust(op, _) => Some(Posting(op.inventoryId, Adjustment, op.absolute, op.meta))
    case Reserve(op) => Some(Posting(op.inventoryId, Reserved, op.quantity, op.meta))
    case Release(op) => Some(Posting(op.inventoryId, ReservationReleased, op.quantity, op.meta))
    case DamageOut(op) => Some(Posting(op.inventoryId, Damage, op.quantity, op.meta))
    case WriteOffOut(op) => Some(Posting(op.inventoryId, WriteOff, op.quantity, op.meta))
    case _ => None
  }

  /** The quantity the call may not exceed. */
  function Headroom(call: StockCall, row: Row): Option<int> {
    match call
    case Remove(_) => Some(row.onHand - row.reserved)
    case Reserve(_) => Some(row.onHand - row.reserved)
    case Release(_) => Some(row.reserved)
    case DamageOut(_) => Some(row.onHand)
    case WriteOffOut(_) => Some(row.onHand)
    case _ => None
  }

  /** A call on one row goes through exactly when the row exists and has the headroom; it then posts
      its one movement and leaves every other row alone, and otherwise it changes nothing. */
  lemma CallPostsIffHeadroom(db: Db, call: StockCall, posting: Posting)
    requires PostingOf(call) == Some(posting)
    ensures if posting.row in db.published.rows
               && (var limit := Headroom(call, db.published.rows[posting.row]);
                   limit.Some? ==> posting.quantity <= limit.value)
            then var q := Exec(db, call).published;
                 && Tx(db, call).Success? && |q.movements| == |db.published.movements| + 1
                 && (var m := q.movements[|db.published.movements|];
                     && Posting(m.row, m.kind, m.quantity, m.meta) == posting
                     && Posts(db.published, q, m, SnapshotCurrent(db, call)))
            else Tx(db, call).Failure? && Exec(db, call) == db
  {
    if Tx(db, call).Success? {
      SingleCallPosts(db, call);
    }
  }

  /** The two sides of a transfer: out of the source row, into the destination row. */
  predicate IsTransferPair(p: Pool, t: TransferOperation, out: Movement, into: Movement) {
    && Posting(out.row, out.kind, out.quantity, out.meta) == Posting(t.source, TransferOut, t.quantity, SourceMeta(t))
    && Posting(into.row, into.kind, into.quantity, into.meta)
       == Posting(DestinationId(p, t), TransferIn, t.quantity, DestinationMeta(t))
  }

  lemma TransferMovements(p: Pool, t: TransferOperation)
    requires WellFormed(p) && TransferTx(p, t).Success?
    ensures var q, n := TransferTx(p, t).value, |p.movements|;
            && Grows(p, q) && |q.movements| == n + 2 && p.movements <= q.movements
            && IsTransferPair(p, t, q.movements[n], q.movements[n + 1])
  {
    TransferGrows(p, t);
    TransferSplit(p, t);
  }

  /** From `at` on the movements are the pairs of the items, one after the other. */
  predicate PairsFrom(p: Pool, inputs: seq<TransferOperation>, ms: seq<Movement>, at: nat) {
    && |ms| == at + 2 * |inputs|
    && forall i :: 0 <= i < |inputs| ==> IsTransferPair(p, inputs[i], ms[at + 2 * i], ms[at + 2 * i + 1])
  }

  lemma PairsCons(p: Pool, p1: Pool, inputs: seq<TransferOperation>, ms: seq<Movement>, at: nat)
    requires inputs != [] && Grows(p, p1) && PairsFrom(p1, inputs[1..], ms, at + 2)
    requires IsTransferPair(p, inputs[0], ms[at], ms[at + 1])
    ensures PairsFrom(p, inputs, ms, at)
  {
    forall i | 0 <= i < |inputs| ensures IsTransferPair(p, inputs[i], ms[at + 2 * i], ms[at + 2 * i + 1]) {
      if i > 0 {
        SameDestination(p, p1, inputs[i]);
        var j := i - 1;
        assert IsTransferPair(p1, inputs[1..][j], ms[at + 2 + 2 * j], ms[at + 2 + 2 * j + 1]);
      }
    }
  }

  /** A batch posts one such pair for each of its items, in their order. */
  lemma {:induction false} BatchMovements(p: Pool, inputs: seq<TransferOperation>)
    requires WellFormed(p) && BatchTx(p, inputs).Success?
    ensures p.movements <= BatchTx(p, inputs).value.movements
    ensures PairsFrom(p, inputs, BatchTx(p, inputs).value.movements, |p.movements|)
    decreases |inputs|
  {
    if inputs != [] {
      var p1 := TransferTx(p, inputs[0]).value;
      TransferMovements(p, inputs[0]);
      BatchMovements(p1, inputs[1..]);
      PairsCons(p, p1, inputs, BatchTx(p, inputs).value.movements, |p.movements|);
    }
  }

  // ---- quantities never fall below zero ----

  predicate QuantitiesNonNegative(call: StockCall) {
    match call
    case Adjust(op) => op.absolute >= 0
    case CommitAdjust(op, _) => op.absolute >= 0
    case AddUnpublished(op) => op.quantity >= 0
    case Publish(op) => op.quantity >= 0
    case Transfer(t) => t.quantity >= 0
    case CompleteBatch(_, inputs) => forall t <- inputs :: t.quantity >= 0
    case Add(op) => op.quantity >= 0
    case Remove(op) => op.quantity >= 0
    case Reserve(op) => op.quantity >= 0
    case Release(op) => op.quantity >= 0
    case DamageOut(op) => op.quantity >= 0
    case WriteOffOut(op) => op.quantity >= 0
  }

  ghost predicate NonNegative(p: Pool) {
    forall id <- p.rows :: p.rows[id].onHand >= 0 && p.rows[id].reserved >= 0
  }

  lemma FindOrCreateNonNegative(p: Pool, key: Key)
    requires NonNegative(p)
    ensures NonNegative(FindOrCreate(p, key))
  {
  }

  lemma TransferNonNegative(p: Pool, t: TransferOperation)
    requires NonNegative(p) && t.quantity >= 0 && TransferTx(p, t).Success?
    ensures NonNegative(TransferTx(p, t).value)
  {
    FindOrCreateNonNegative(p, DestinationKey(t));
    TransferSplit(p, t);
  }

  lemma {:induction false} BatchNonNegative(p: Pool, inputs: seq<TransferOperation>)
    requires NonNegative(p) && BatchTx(p, inputs).Success? && forall t <- inputs :: t.quantity >= 0
    ensures NonNegative(BatchTx(p, inputs).value)
    decreases |inputs|
  {
    if inputs != [] {
      TransferNonNegative(p, inputs[0]);
      assert forall t <- inputs[1..] :: t in inputs;
      BatchNonNegative(TransferTx(p, inputs[0]).value, inputs[1..]);
    }
  }

  ghost predicate StockNonNegative(db: Db) {
    NonNegative(db.published) && NonNegative(db.unpublished)
  }

  lemma SingleNonNegative(db: Db, call: StockCall)
    requires StockNonNegative(db) && QuantitiesNonNegative(call)
    requires PostingOf(call).Some? || call.Publish?
    ensures StockNonNegative(Exec(db, call))
  {
  }

  lemma ExecNonNegative(db: Db, call: StockCall)
    requires StockNonNegative(db) && QuantitiesNonNegative(call)
    ensures StockNonNegative(Exec(db, call))
  {
    if Tx(db, call).Success? {
      match call
      case Transfer(t) => TransferNonNegative(db.published, t);
      case CompleteBatch(_, inputs) => BatchNonNegative(db.published, inputs);
      case AddUnpublished(op) => FindOrCreateNonNegative(db.unpublished, op.key);
      case _ => SingleNonNegative(db, call);
    }
  }

  predicate LinesNonNegative(bill: Bill) {
    forall item <- bill.items :: item.quantity >= 0
  }

  lemma {:induction false} LinesKeepNonNegative(p: Pool, bill: Bill, items: seq<BillItem>, user: Id)
    requires NonNegative(p) && LinesTx(p, bill, items, user).Success? && forall item <- items :: item.quantity >= 0
    ensures NonNegative(LinesTx(p, bill, items, user).value)
    decreases |items|
  {
    if items != [] {
      assert forall item <- items[1..] :: item in items;
      LinesKeepNonNegative(LineTx(p, bill, items[0], user).value, bill, items[1..], user);
    }
  }

  /** Stock is non-negative, and so is every line of every bill. */
  ghost predicate Sound(db: Db) {
    StockNonNegative(db) && forall id <- db.bills :: LinesNonNegative(db.bills[id])
  }

  lemma AdvanceSound(db: Db, p: Process)
    requires Sound(db) && (p.Process? ==> LinesNonNegative(p.bill))
    ensures Sound(Advance(db, p).0)
    ensures Advance(db, p).1.Process? ==> LinesNonNegative(Advance(db, p).1.bill)
  {
    AdvanceKeepsProcess(db, p);
    AdvanceFrame(db, p);
    if p.Process? && p.stage.Deduct? && Advance(db, p).0 != db {
      LinesKeepNonNegative(SalePool(db, p.bill), p.bill, p.bill.items, p.call.performedBy);
    }
  }

  lemma {:induction false} DriveSound(db: Db, p: Process, k: nat)
    requires Sound(db) && (p.Process? ==> LinesNonNegative(p.bill))
    ensures Sound(Drive(db, p, k).0)
    decreases k
  {
    if k > 0 {
      AdvanceSound(db, p);
      DriveSound(Advance(db, p).0, Advance(db, p).1, k - 1);
    }
  }

  predicate RequestNonNegative(r: Request) {
    match r
    case StockRequest(call) => QuantitiesNonNegative(call)
    case RegisterBill(bill) => LinesNonNegative(bill)
    case EditBill(bill) => LinesNonNegative(bill)
    case _ => true
  }

  lemma PutBillSound(db: Db, id: Id, bill: Bill)
    requires Sound(db) && LinesNonNegative(bill)
    ensures Sound(db.(bills := db.bills[id := bill]))
  {
  }

  lemma BillRequestSound(db: Db, r: Request)
    requires Sound(db) && RequestNonNegative(r) && (r.RegisterBill? || r.EditBill?)
    ensures Sound(Serve(db, r))
  {
    if r.RegisterBill? {
      PutBillSound(db, r.newBill.id, r.newBill);
    } else if r.edited.id in db.bills {
      PutBillSound(db, r.edited.id, Edited(db.bills[r.edited.id], r.edited));
    }
  }

  lemma VoidSound(db: Db, id: Id)
    requires Sound(db)
    ensures Sound(Serve(db, VoidBill(id)))
  {
  }

  lemma ServeSound(db: Db, r: Request)
    requires Sound(db) && RequestNonNegative(r)
    ensures Sound(Serve(db, r))
  {
    match r
    case StockRequest(call) =>
      ExecNonNegative(db, call);
      ExecFrame(db, call);
    case CompleteRequest(call, k) => DriveSound(db, Begin(db, call), k);
    case RegisterBill(_) => BillRequestSound(db, r);
    case EditBill(_) => BillRequestSound(db, r);
    case VoidBill(id) => VoidSound(db, id);
    case _ =>
  }

  ghost predicate CopiesNonNegative(c: Copies) {
    && (forall id <- c.published :: c.published[id].onHand >= 0 && c.published[id].reserved >= 0)
    && (forall id <- c.unpublished :: c.unpublished[id].onHand >= 0 && c.unpublished[id].reserved >= 0)
  }

  lemma SeenNonNegative(db: Db, c: Copies)
    requires StockNonNegative(db) && CopiesNonNegative(c)
    ensures StockNonNegative(Seen(db, c))
  {
  }

  lemma SavedNonNegative(p: Pool, q: Pool)
    requires NonNegative(p) && NonNegative(q) && p.movements <= q.movements
    ensures NonNegative(Saved(p, q))
  {
  }

  lemma CommitNonNegative(db: Db, call: StockCall, c: Copies)
    requires Sound(db) && CopiesNonNegative(c) && QuantitiesNonNegative(call)
    ensures Sound(ExecOn(db, call, c))
  {
    var r := Tx(Seen(db, c), call);
    if r.Success? {
      SeenNonNegative(db, c);
      ExecNonNegative(Seen(db, c), call);
      ExecFrame(Seen(db, c), call);
      TxAppends(Seen(db, c), call);
      SavedNonNegative(db.published, r.value.published);
      SavedNonNegative(db.unpublished, r.value.unpublished);
    }
  }

  lemma AdvanceOnSound(db: Db, p: Process, c: Copies)
    requires Sound(db) && CopiesNonNegative(c) && (p.Process? ==> LinesNonNegative(p.bill))
    ensures Sound(AdvanceOn(db, p, c).0)
    ensures AdvanceOn(db, p, c).1.Process? ==> LinesNonNegative(AdvanceOn(db, p, c).1.bill)
  {
    if !(p.Process? && p.stage.Deduct?) {
      AdvanceSound(db, p);
    } else if SaleArrives(db, p, c) {
      SeenNonNegative(db, c);
      AdvanceSound(Seen(db, c), p);
      SaleSaves(db, p, c);
      SavedNonNegative(db.published, SaleSeen(db, p, c).published);
      SavedNonNegative(db.unpublished, SaleSeen(db, p, c).unpublished);
    }
  }

  predicate EventNonNegative(e: Event) {
    match e
    case Serving(r) => RequestNonNegative(r)
    case CommitsAdjustment(_, op) => op.absolute >= 0
    case CommitsStock(_, call) => QuantitiesNonNegative(call)
    case CommitsEdit(_, edited, _) => LinesNonNegative(edited)
    case _ => true
  }

  ghost predicate WorldSound(w: World) {
    && Sound(w.db)
    && (forall pid <- w.processes :: w.processes[pid].Process? ==> LinesNonNegative(w.processes[pid].bill))
    && (forall tx <- w.copies :: CopiesNonNegative(w.copies[tx]))
  }

  lemma StepDbSound(w: World, e: Event)
    requires WorldSound(w) && EventNonNegative(e)
    ensures Sound(Step(w, e).db)
  {
    match e
    case Serving(r) => ServeSound(w.db, r);
    case Steps(pid) => if pid in w.processes { AdvanceSound(w.db, w.processes[pid]); }
    case CommitsAdjustment(s, op) =>
      if s in w.snapshots { ServeSound(w.db, StockRequest(CommitAdjust(op, w.snapshots[s]))); }
    case CommitsStock(tx, call) => CommitNonNegative(w.db, call, CopiesOf(w, tx));
    case StepsOn(pid, tx) => if pid in w.processes { AdvanceOnSound(w.db, w.processes[pid], CopiesOf(w, tx)); }
    case CommitsEdit(d, edited, target) =>
      if d in w.drafts { PutBillSound(w.db, w.drafts[d].id, Rewritten(w.drafts[d], edited, target)); }
    case _ =>
  }

  lemma CallSound(w: World, e: Event, pid: nat)
    requires WorldSound(w) && pid in Step(w, e).processes
    ensures Step(w, e).processes[pid].Process? ==> LinesNonNegative(Step(w, e).processes[pid].bill)
  {
    if e.Steps? && e.pid == pid {
      AdvanceSound(w.db, w.processes[pid]);
    } else if e.StepsOn? && e.pid == pid {
      AdvanceOnSound(w.db, w.processes[pid], CopiesOf(w, e.tx));
    }
  }

  lemma ReadSound(db: Db, c: Copies, published: bool, row: RowId)
    requires StockNonNegative(db) && CopiesNonNegative(c)
    ensures CopiesNonNegative(ReadRow(db, c, published, row)) && CopiesNonNegative(ReadFirst(db, c, published, row))
  {
  }

  lemma CopySound(w: World, e: Event, tx: nat)
    requires WorldSound(w) && tx in Step(w, e).copies
    ensures CopiesNonNegative(Step(w, e).copies[tx])
  {
    if (e.ReadsRow? || e.ReadsFirst?) && e.tx == tx {
      ReadSound(w.db, CopiesOf(w, tx), e.published, e.row);
    } else {
      OtherCopies(w, e, tx);
    }
  }

  lemma StepSound(w: World, e: Event)
    requires WorldSound(w) && EventNonNegative(e)
    ensures WorldSound(Step(w, e))
  {
    StepDbSound(w, e);
    forall pid <- Step(w, e).processes
      ensures Step(w, e).processes[pid].Process? ==> LinesNonNegative(Step(w, e).processes[pid].bill)
    {
      CallSound(w, e, pid);
    }
    forall tx <- Step(w, e).copies ensures CopiesNonNegative(Step(w, e).copies[tx]) {
      CopySound(w, e, tx);
    }
  }

  /** Over every run and interleaving of requests with non-negative quantities, crashes, rollbacks and
      lost updates included, no row of either pool ever falls below zero, on hand or reserved. */
  lemma {:induction false} StockNeverNegative(w: World, es: seq<Event>)
    requires WorldSound(w) && forall e <- es :: EventNonNegative(e)
    ensures WorldSound(StepAll(w, es))
    decreases |es|
  {
    if es != [] {
      StepSound(w, es[0]);
      assert forall e <- es[1..] :: e in es;
      StockNeverNegative(Step(w, es[0]), es[1..]);
    }
  }
}
