/** What later events do to a completed bill: which of them undo its completion, and which edits leave it
    settled as it stands. */
module CompletedBills {
  import opened Wrappers
  import opened StockPool
  import opened Tables
  import opened StockOrchestration
  import opened StockProofs
  import opened BillCompletion
  import opened BillProofs
  import opened BillEffects
  import opened Runs
  import opened Isolation
  import opened Interleaving
  import opened CrashSafety

  // ---- what undoes a completion ----

  /** The bill is completed, and queries find it. */
  predicate IsCompleted(db: Db, id: Id) {
    id in db.bills && db.bills[id].status.Closed? && id !in db.deletedBills
  }

  /** The event cancels the bill, saves over it a copy with another status, or deletes it on the ground of
      an outdated one. */
  predicate Undoes(w: World, e: Event, id: Id) {
    match e
    case Serving(r) => r == VoidBill(id)
    case CommitsEdit(d, _, target) =>
      d in w.drafts && w.drafts[d].id == id
      && (!w.drafts[d].status.Closed? || (target.Some? && !target.value.Closed?))
    case CommitsDeletion(d) =>
      d in w.drafts && w.drafts[d].id == id && !w.drafts[d].status.Closed? && !w.drafts[d].status.Voided?
    case _ => false
  }

  lemma AdvanceKeepsCompleted(db: Db, p: Process, id: Id)
    requires IsCompleted(db, id)
    ensures IsCompleted(Advance(db, p).0, id)
  {
    AdvanceFrame(db, p);
  }

  lemma {:induction false} DriveKeepsCompleted(db: Db, p: Process, k: nat, id: Id) returns (end: Db)
    requires IsCompleted(db, id)
    ensures end == Drive(db, p, k).0 && IsCompleted(end, id)
    decreases k
  {
    if k == 0 {
      end := db;
    } else {
      var (d, q) := Advance(db, p);
      AdvanceKeepsCompleted(db, p, id);
      end := DriveKeepsCompleted(d, q, k - 1, id);
    }
  }

  lemma BillRequestUndoesIff(db: Db, r: Request, id: Id)
    requires IsCompleted(db, id) && (r.RegisterBill? || r.EditBill? || r.VoidBill? || r.DeleteBill?)
    ensures IsCompleted(Serve(db, r), id) <==> r != VoidBill(id)
  {
  }

  lemma OtherRequestKeepsCompleted(db: Db, r: Request, id: Id)
    requires IsCompleted(db, id) && (r.GateRequest? || r.Decide? || r.Pay? || r.Sync?)
    ensures IsCompleted(Serve(db, r), id)
  {
  }

  lemma ServeUndoesIff(db: Db, r: Request, id: Id)
    requires IsCompleted(db, id)
    ensures IsCompleted(Serve(db, r), id) <==> r != VoidBill(id)
  {
    if r.StockRequest? {
      ExecFrame(db, r.stock);
    } else if r.CompleteRequest? {
      var end := DriveKeepsCompleted(db, Begin(db, r.call), r.lifetime, id);
    } else if r.GateRequest? || r.Decide? || r.Pay? || r.Sync? {
      OtherRequestKeepsCompleted(db, r, id);
    } else {
      BillRequestUndoesIff(db, r, id);
    }
  }

  lemma StockEventKeepsCompleted(w: World, e: Event, id: Id)
    requires IsCompleted(w.db, id) && TouchesStock(e) && !e.Serving?
    ensures IsCompleted(Step(w, e).db, id)
  {
    match e
    case Steps(pid) => if pid in w.processes { AdvanceKeepsCompleted(w.db, w.processes[pid], id); }
    case CommitsAdjustment(s, op) => if s in w.snapshots { ExecFrame(w.db, CommitAdjust(op, w.snapshots[s])); }
    case CommitsStock(tx, call) => ExecOnFrame(w.db, call, CopiesOf(w, tx));
    case StepsOn(pid, tx) =>
      if pid in w.processes {
        AdvanceOnFrame(w.db, w.processes[pid], CopiesOf(w, tx));
        AdvanceKeepsCompleted(w.db, w.processes[pid], id);
      }
  }

  lemma QuietEventUndoesIff(w: World, e: Event, id: Id)
    requires IsCompleted(w.db, id) && !TouchesStock(e)
    ensures IsCompleted(Step(w, e).db, id) <==> !Undoes(w, e, id)
  {
  }

  lemma StepUndoesIff(w: World, e: Event, id: Id)
    requires IsCompleted(w.db, id)
    ensures IsCompleted(Step(w, e).db, id) <==> !Undoes(w, e, id)
  {
    if e.Serving? {
      ServeUndoesIff(w.db, e.request, id);
    } else if TouchesStock(e) {
      StockEventKeepsCompleted(w, e, id);
    } else {
      QuietEventUndoesIff(w, e, id);
    }
  }

  predicate CompletedThroughout(w: World, es: seq<Event>, id: Id)
    decreases |es|
  {
    IsCompleted(w.db, id) && (es == [] || CompletedThroughout(Step(w, es[0]), es[1..], id))
  }

  predicate NoneUndoes(w: World, es: seq<Event>, id: Id)
    decreases |es|
  {
    es == [] || (!Undoes(w, es[0], id) && NoneUndoes(Step(w, es[0]), es[1..], id))
  }

  /** Over every interleaving a completed bill stays completed in all states exactly when nothing cancels
      it, no edit saves a copy that it has loaded with another status or moves it to one, and no deletion
      rests on such a copy. */
  lemma {:induction false} CompletionStays(w: World, es: seq<Event>, id: Id)
    requires IsCompleted(w.db, id)
    ensures CompletedThroughout(w, es, id) <==> NoneUndoes(w, es, id)
    decreases |es|
  {
    if es != [] {
      StepUndoesIff(w, es[0], id);
      if !Undoes(w, es[0], id) {
        CompletionStays(Step(w, es[0]), es[1..], id);
      }
    }
  }

  lemma {:induction false} FinishedIsCompleted(db: Db, p: Process, k: nat) returns (end: Db, q: Process)
    requires p.Process? && !p.stage.Finished? && p.bill.id !in db.deletedBills
    ensures (end, q) == Drive(db, p, k)
    ensures q.Process? && end.deletedBills == db.deletedBills && (q.stage.Finished? ==> IsCompleted(end, p.bill.id))
    decreases k
  {
    if k == 0 {
      end, q := db, p;
    } else {
      var (d1, p1) := Advance(db, p);
      AdvanceKeepsProcess(db, p);
      AdvanceFrame(db, p);
      AdvanceOrder(db, p);
      if p1.stage.Finished? {
        DriveEnded(d1, p1, k - 1);
        end, q := d1, p1;
      } else {
        end, q := FinishedIsCompleted(d1, p1, k - 1);
      }
    }
  }

  /** An edit that has loaded the bill before its completion writes the old status back and leaves
      everything else the completion has done: where that ran to its end, the bill was completed, and is no
      longer, unless it had been before; it may be completed, and its stock deducted, once more. */
  lemma LateEditReopens(w: World, d: nat, call: CompleteCall, k: nat, edited: Bill)
    requires call.bill in w.db.bills && call.bill !in w.db.deletedBills && w.db.bills[call.bill].id == call.bill
    ensures var completed := Step(Step(w, ReadsBill(d, call.bill)), Serving(CompleteRequest(call, k)));
            var end, q := Step(completed, CommitsEdit(d, edited, None)), Drive(w.db, Begin(w.db, call), k).1;
            && completed.db == Drive(w.db, Begin(w.db, call), k).0
            && (q.Process? && q.stage.Finished? ==> IsCompleted(completed.db, call.bill))
            && end.db == completed.db.(bills := end.db.bills)
            && call.bill in end.db.bills && end.db.bills[call.bill].status == w.db.bills[call.bill].status
            && (IsCompleted(end.db, call.bill) <==> w.db.bills[call.bill].status.Closed?)
  {
    var completed := Step(Step(w, ReadsBill(d, call.bill)), Serving(CompleteRequest(call, k)));
    assert d in completed.drafts && completed.drafts[d] == w.db.bills[call.bill];
    assert Rewritten(completed.drafts[d], edited, None).id == call.bill;
    var end, q := FinishedIsCompleted(w.db, Begin(w.db, call), k);
  }

  /** Such a completion: of a normal bill without lines, in four steps. */
  lemma EmptyBillReopens(w: World, d: nat, call: CompleteCall, edited: Bill)
    requires call.bill in w.db.bills && call.bill !in w.db.deletedBills && w.db.bills[call.bill].id == call.bill
    requires w.db.bills[call.bill].saleType.Normal? && w.db.bills[call.bill].items == []
    requires w.db.bills[call.bill].status.Initiated?
    ensures var completed := Step(Step(w, ReadsBill(d, call.bill)), Serving(CompleteRequest(call, 4)));
            && IsCompleted(completed.db, call.bill)
            && !IsCompleted(Step(completed, CommitsEdit(d, edited, None)).db, call.bill)
  {
    var p := Begin(w.db, call);
    var bill := p.bill;
    assert Advance(w.db, p) == (w.db, p.(stage := Deduct));
    assert Advance(w.db, p.(stage := Deduct)) == (w.db, p.(stage := RecordCommission));
    assert Advance(w.db, p.(stage := RecordCommission)) == (w.db, p.(stage := Close));
    FourSteps(w.db, p);
    LateEditReopens(w, d, call, 4, edited);
  }

  lemma FourSteps(db: Db, p: Process)
    requires p.Process? && Advance(db, p) == (db, p.(stage := Deduct))
    requires Advance(db, p.(stage := Deduct)) == (db, p.(stage := RecordCommission))
    requires Advance(db, p.(stage := RecordCommission)) == (db, p.(stage := Close))
    ensures Drive(db, p, 4).1 == p.(stage := Finished)
  {
    var last := p.(stage := Close);
    assert Drive(db, last, 1) == Drive(Advance(db, last).0, Advance(db, last).1, 0);
    assert Drive(db, p, 4) == Drive(db, p.(stage := Deduct), 3) == Drive(db, p.(stage := RecordCommission), 2) == Drive(db, last, 1);
  }

  // ---- which edits leave a completed bill settled ----

  /** Nothing stops an edit of a completed bill: a line added then, of a quantity no movement has,
      leaves a completed bill that is not settled as it stands. */
  lemma LateLineIsUnsettled(db: Db, bill: Bill, line: BillItem)
    requires bill.id in db.bills && bill.id !in db.deletedBills && db.bills[bill.id] == bill && bill.status.Closed?
    requires forall m <- SalePool(db, bill).movements :: m.quantity != line.quantity
    ensures var edited := bill.(items := bill.items + [line]);
            var d := Serve(db, EditBill(edited));
            d.bills[bill.id] == edited && d.bills[bill.id].status.Closed? && !StockTaken(d, edited)
  {
    var edited := bill.(items := bill.items + [line]);
    var d := Serve(db, EditBill(edited));
    forall at: nat ensures !HasSaleMovements(d, edited, at) {
      if at + |edited.items| <= |SalePool(d, edited).movements| {
        var m := SalePool(d, edited).movements[at + |bill.items|];
        assert m in SalePool(db, bill).movements && edited.items[|bill.items|] == line;
        assert !IsSaleMovement(SalePool(d, edited), m, edited, line);
      }
    }
  }

  /** What a movement of the bill's sale is called. Edits change neither number nor type. */
  predicate Names(m: Movement, bill: Bill) {
    m.kind.StockOut? &&
    if bill.saleType.Black? then m.meta.reference == None && m.meta.notes == "Black sale " + bill.number
    else m.meta.reference == Some(bill.id) && m.meta.notes == "Sale " + bill.number
  }

  /** The movements from `at` on are the only ones of that name. */
  predicate SoldOnce(db: Db, sold: Bill, at: nat) {
    var ms := SalePool(db, sold).movements;
    && HasSaleMovements(db, sold, at)
    && forall k :: 0 <= k < |ms| && Names(ms[k], sold) ==> at <= k < at + |sold.items|
  }

  /** And the bill's only credit transactions are those of its sale. */
  predicate ChargedOnce(db: Db, sold: Bill) {
    forall t <- db.creditTxns :: t.bill == sold.id ==> sold.saleType.Credit? && IsTxnOf(t, sold)
  }

  /** The lines, in their order, are among the sold ones without a gap. */
  predicate Stretch(a: seq<BillItem>, b: seq<BillItem>) {
    exists i :: 0 <= i <= |b| && StretchAt(a, b, i)
  }

  predicate StretchAt(a: seq<BillItem>, b: seq<BillItem>, i: nat) {
    i + |a| <= |b| && a == b[i..i + |a|]
  }

  predicate HoldsStretch(bill: Bill, sold: Bill) {
    bill.items != [] ==> bill.location == sold.location && Stretch(bill.items, sold.items)
  }

  /** The lines are among the sold ones, in any order, none more often than sold. */
  predicate HoldsSome(bill: Bill, sold: Bill) {
    bill.items != [] ==> bill.location == sold.location && multiset(bill.items) <= multiset(sold.items)
  }

  predicate SameDebt(bill: Bill, sold: Bill) {
    sold.saleType.Credit? ==> bill.customer == sold.customer && bill.total == sold.total
  }

  /** Whose movement it is, and which line's. */
  lemma MovementIsOf(p: Pool, m: Movement, bill: Bill, item: BillItem, sold: Bill, line: BillItem)
    requires Core(bill) == Core(sold) && IsSaleMovement(p, m, sold, line)
    ensures IsSaleMovement(p, m, bill, item) <==> bill.location == sold.location && item == line
  {
  }

  lemma MovementIsNamed(p: Pool, m: Movement, bill: Bill, item: BillItem, sold: Bill)
    requires Core(bill) == Core(sold) && IsSaleMovement(p, m, bill, item)
    ensures Names(m, sold)
  {
  }

  lemma StretchIff(db: Db, sold: Bill, bill: Bill, at: nat)
    requires SoldOnce(db, sold, at) && Core(bill) == Core(sold) && bill.items != []
    ensures StockTaken(db, bill) <==> bill.location == sold.location && Stretch(bill.items, sold.items)
  {
    var p := SalePool(db, sold);
    if StockTaken(db, bill) {
      var from: nat :| HasSaleMovements(db, bill, from);
      StretchOf(db, sold, bill, at, from);
    }
    if bill.location == sold.location && Stretch(bill.items, sold.items) {
      var i :| 0 <= i <= |sold.items| && StretchAt(bill.items, sold.items, i);
      forall j | 0 <= j < |bill.items| ensures IsSaleMovement(p, p.movements[at + i + j], bill, bill.items[j]) {
        assert IsSaleMovement(p, p.movements[at + (i + j)], sold, sold.items[i + j]);
        MovementIsOf(p, p.movements[at + i + j], bill, bill.items[j], sold, sold.items[i + j]);
      }
      assert HasSaleMovements(db, bill, at + i);
    }
  }

  /** A line that has a movement of the sale is one of the lines sold. */
  lemma LineSold(db: Db, sold: Bill, bill: Bill, at: nat, k: nat, item: BillItem)
    requires SoldOnce(db, sold, at) && Core(bill) == Core(sold) && k < |SalePool(db, sold).movements|
    requires IsSaleMovement(SalePool(db, sold), SalePool(db, sold).movements[k], bill, item)
    ensures at <= k < at + |sold.items| && bill.location == sold.location && item == sold.items[k - at]
  {
    var p := SalePool(db, sold);
    MovementIsNamed(p, p.movements[k], bill, item, sold);
    assert IsSaleMovement(p, p.movements[at + (k - at)], sold, sold.items[k - at]);
    MovementIsOf(p, p.movements[k], bill, item, sold, sold.items[k - at]);
  }

  lemma StretchOf(db: Db, sold: Bill, bill: Bill, at: nat, from: nat)
    requires SoldOnce(db, sold, at) && Core(bill) == Core(sold) && bill.items != [] && HasSaleMovements(db, bill, from)
    ensures bill.location == sold.location && Stretch(bill.items, sold.items)
  {
    var n := |bill.items|;
    forall j | 0 <= j < n ensures at <= from + j < at + |sold.items| && bill.items[j] == sold.items[from + j - at] {
      LineSold(db, sold, bill, at, from + j, bill.items[j]);
    }
    LineSold(db, sold, bill, at, from, bill.items[0]);
    LineSold(db, sold, bill, at, from + (n - 1), bill.items[n - 1]);
    assert StretchAt(bill.items, sold.items, from - at);
  }

  lemma DebtIff(db: Db, sold: Bill, bill: Bill)
    requires CreditRecorded(db, sold) && ChargedOnce(db, sold) && Core(bill) == Core(sold)
    ensures CreditRecorded(db, bill) <==> SameDebt(bill, sold)
  {
    assert bill.id == sold.id && bill.saleType == sold.saleType by {
      assert Core(bill).id == bill.id && Core(sold).id == sold.id;
      assert Core(bill).saleType == bill.saleType && Core(sold).saleType == sold.saleType;
    }
    if sold.saleType.Credit? && SameDebt(bill, sold) {
      var t :| t in db.creditTxns && IsTxnOf(t, sold);
      assert IsTxnOf(t, bill);
    }
  }

  lemma CoreKeepsCommission(db: Db, sold: Bill, bill: Bill)
    requires Core(bill) == Core(sold)
    ensures CommissionRecorded(db, bill) == CommissionRecorded(db, sold)
  {
    var a, b := Core(bill), Core(sold);
    assert Commissioned(a) == Commissioned(bill) && forall c :: IsCommissionFor(c, a) == IsCommissionFor(c, bill);
    assert Commissioned(b) == Commissioned(sold) && forall c :: IsCommissionFor(c, b) == IsCommissionFor(c, sold);
  }

  /** Whatever the edits: of a bill sold once, the row is settled as it stands exactly when its lines are a
      stretch of those sold, at the same location, and a credit bill has kept customer and total. */
  lemma SettledIff(db: Db, sold: Bill, bill: Bill, at: nat)
    requires Settled(db, sold) && SoldOnce(db, sold, at) && ChargedOnce(db, sold) && Core(bill) == Core(sold)
    ensures Settled(db, bill) <==> HoldsStretch(bill, sold) && SameDebt(bill, sold)
  {
    DebtIff(db, sold, bill);
    CoreKeepsCommission(db, sold, bill);
    if bill.items == [] {
      assert HasSaleMovements(db, bill, 0);
    } else {
      StretchIff(db, sold, bill, at);
    }
  }

  // ---- in any order ----

  /** Each line has a movement to itself, in whatever order. */
  predicate AssignedTo(db: Db, bill: Bill, at: seq<nat>) {
    var p := SalePool(db, bill);
    && |at| == |bill.items|
    && (forall i, j :: 0 <= i < j < |at| ==> at[i] != at[j])
    && forall j :: 0 <= j < |at| ==> at[j] < |p.movements| && IsSaleMovement(p, p.movements[at[j]], bill, bill.items[j])
  }

  ghost predicate Accounted(db: Db, bill: Bill) {
    (exists at :: AssignedTo(db, bill, at)) && CommissionRecorded(db, bill) && CreditRecorded(db, bill)
  }

  lemma SettledIsAccounted(db: Db, bill: Bill)
    requires Settled(db, bill)
    ensures Accounted(db, bill)
  {
    var from: nat :| HasSaleMovements(db, bill, from);
    assert AssignedTo(db, bill, seq(|bill.items|, j requires 0 <= j < |bill.items| => from + j));
  }

  predicate Picks(a: seq<BillItem>, b: seq<BillItem>, at: seq<nat>) {
    && |at| == |a| && (forall i, j :: 0 <= i < j < |at| ==> at[i] != at[j])
    && forall j :: 0 <= j < |at| ==> at[j] < |b| && a[j] == b[at[j]]
  }

  function Without(b: seq<BillItem>, i: nat): seq<BillItem>
    requires i < |b|
  {
    b[..i] + b[i + 1..]
  }

  lemma WithoutMultiset(b: seq<BillItem>, i: nat)
    requires i < |b|
    ensures multiset(b) == multiset(Without(b, i)) + multiset{b[i]}
  {
    assert b == b[..i] + [b[i]] + b[i + 1..];
  }

  lemma {:induction false} PickedAreIncluded(a: seq<BillItem>, b: seq<BillItem>, at: seq<nat>)
    requires Picks(a, b, at)
    ensures multiset(a) <= multiset(b)
    decreases |a|
  {
    if a != [] {
      var n := |a| - 1;
      var i := at[n];
      var rest := seq(n, j requires 0 <= j < n => if at[j] < i then at[j] else at[j] - 1);
      forall j | 0 <= j < n ensures rest[j] < |Without(b, i)| && a[..n][j] == Without(b, i)[rest[j]] {
        assert at[j] != at[n];
      }
      PickedAreIncluded(a[..n], Without(b, i), rest);
      WithoutMultiset(b, i);
      assert a == a[..n] + [a[n]];
    }
  }

  lemma LessIncluded(a: seq<BillItem>, b: seq<BillItem>, i: nat)
    requires a != [] && multiset(a) <= multiset(b) && i < |b| && b[i] == a[|a| - 1]
    ensures multiset(a[..|a| - 1]) <= multiset(Without(b, i))
  {
    WithoutMultiset(b, i);
    assert a == a[..|a| - 1] + [a[|a| - 1]];
    forall x ensures multiset(a[..|a| - 1])[x] <= multiset(Without(b, i))[x] {
      assert multiset(a)[x] <= multiset(b)[x];
      assert multiset(a)[x] == multiset(a[..|a| - 1])[x] + multiset{b[i]}[x];
      assert multiset(b)[x] == multiset(Without(b, i))[x] + multiset{b[i]}[x];
    }
  }

  lemma LastIncluded(a: seq<BillItem>, b: seq<BillItem>) returns (i: nat)
    requires a != [] && multiset(a) <= multiset(b)
    ensures i < |b| && b[i] == a[|a| - 1]
  {
    assert a[|a| - 1] in multiset(a) && a[|a| - 1] in multiset(b);
    i :| 0 <= i < |b| && b[i] == a[|a| - 1];
  }

  lemma {:induction false} IncludedArePicked(a: seq<BillItem>, b: seq<BillItem>) returns (at: seq<nat>)
    requires multiset(a) <= multiset(b)
    ensures Picks(a, b, at)
    decreases |a|
  {
    if a == [] {
      at := [];
    } else {
      var n := |a| - 1;
      var i := LastIncluded(a, b);
      LessIncluded(a, b, i);
      var rest := IncludedArePicked(a[..n], Without(b, i));
      at := seq(n, j requires 0 <= j < n => if rest[j] < i then rest[j] else rest[j] + 1) + [i];
      assert forall j :: 0 <= j < n ==> a[j] == a[..n][j] == Without(b, i)[rest[j]];
    }
  }

  lemma AssignedIff(db: Db, sold: Bill, bill: Bill, at: nat)
    requires SoldOnce(db, sold, at) && Core(bill) == Core(sold) && bill.items != []
    ensures (exists to :: AssignedTo(db, bill, to)) <==>
            bill.location == sold.location && multiset(bill.items) <= multiset(sold.items)
  {
    if to :| AssignedTo(db, bill, to) {
      AssignedAreSold(db, sold, bill, at, to);
    }
    if bill.location == sold.location && multiset(bill.items) <= multiset(sold.items) {
      var picks := IncludedArePicked(bill.items, sold.items);
      SoldAreAssigned(db, sold, bill, at, picks);
    }
  }

  lemma AssignedAreSold(db: Db, sold: Bill, bill: Bill, at: nat, to: seq<nat>)
    requires SoldOnce(db, sold, at) && Core(bill) == Core(sold) && bill.items != [] && AssignedTo(db, bill, to)
    ensures bill.location == sold.location && multiset(bill.items) <= multiset(sold.items)
  {
    forall j | 0 <= j < |to| ensures at <= to[j] < at + |sold.items| && bill.items[j] == sold.items[to[j] - at] {
      LineSold(db, sold, bill, at, to[j], bill.items[j]);
    }
    LineSold(db, sold, bill, at, to[0], bill.items[0]);
    PickedAreIncluded(bill.items, sold.items, seq(|to|, j requires 0 <= j < |to| => to[j] - at));
  }

  lemma SoldAreAssigned(db: Db, sold: Bill, bill: Bill, at: nat, picks: seq<nat>)
    requires HasSaleMovements(db, sold, at) && Core(bill) == Core(sold) && bill.location == sold.location
    requires Picks(bill.items, sold.items, picks)
    ensures AssignedTo(db, bill, seq(|picks|, j requires 0 <= j < |picks| => at + picks[j]))
  {
    var p, to := SalePool(db, bill), seq(|picks|, j requires 0 <= j < |picks| => at + picks[j]);
    assert p == SalePool(db, sold) by {
      assert Core(bill).saleType == bill.saleType && Core(sold).saleType == sold.saleType;
    }
    forall j | 0 <= j < |to| ensures IsSaleMovement(p, p.movements[to[j]], bill, bill.items[j]) {
      assert IsSaleMovement(p, p.movements[at + picks[j]], sold, sold.items[picks[j]]);
      MovementIsOf(p, p.movements[to[j]], bill, bill.items[j], sold, sold.items[picks[j]]);
    }
  }

  /** And each of its lines has a movement exactly when the lines are, with their multiplicity, among those
      sold. */
  lemma AccountedIff(db: Db, sold: Bill, bill: Bill, at: nat)
    requires Settled(db, sold) && SoldOnce(db, sold, at) && ChargedOnce(db, sold) && Core(bill) == Core(sold)
    ensures Accounted(db, bill) <==> HoldsSome(bill, sold) && SameDebt(bill, sold)
  {
    DebtIff(db, sold, bill);
    CoreKeepsCommission(db, sold, bill);
    if bill.items == [] {
      assert AssignedTo(db, bill, []);
    } else {
      AssignedIff(db, sold, bill, at);
    }
  }

  /** Which edits leave a completed bill settled, or accounted for. */
  lemma EditKeepsSettledIff(db: Db, bill: Bill, edited: Bill, at: nat)
    requires bill.id in db.bills && bill.id !in db.deletedBills && db.bills[bill.id] == bill && edited.id == bill.id
    requires Settled(db, bill) && SoldOnce(db, bill, at) && ChargedOnce(db, bill)
    ensures var d := Serve(db, EditBill(edited));
            && bill.id in d.bills && d.bills[bill.id].status == bill.status
            && (Settled(d, d.bills[bill.id]) <==> HoldsStretch(edited, bill) && SameDebt(edited, bill))
            && (Accounted(d, d.bills[bill.id]) <==> HoldsSome(edited, bill) && SameDebt(edited, bill))
  {
    var d, row := Serve(db, EditBill(edited)), Edited(bill, edited);
    assert HasSaleMovements(d, bill, at) && SoldOnce(d, bill, at);
    assert CreditRecorded(d, bill) && CommissionRecorded(d, bill) && StockTaken(d, bill);
    SettledIff(d, bill, row, at);
    AccountedIff(d, bill, row, at);
  }

  // ---- over runs ----

  /** In every state of every run from tables without completed bills: a completed bill, edited or not, goes
      back to a copy that a completion has loaded and settled, and, where that was its only sale, is settled
      or accounted for as it stands exactly when its lines, location, customer and total are those of
      the copy, in the sense of the two theorems above. */
  lemma CompletedBillSettledIff(w: World, es: seq<Event>, id: Id) returns (sold: Bill)
    requires FreshStart(w)
    requires var db := StepAll(w, es).db; id in db.bills && db.bills[id].status.Closed?
    ensures var db, bill := StepAll(w, es).db, StepAll(w, es).db.bills[id];
            && sold in HistoryAfter(w, es, History({}, {})).loads && Settled(db, sold) && Core(sold) == Core(bill)
            && forall at: nat :: SoldOnce(db, sold, at) && ChargedOnce(db, sold) ==>
                 && (Settled(db, bill) <==> HoldsStretch(bill, sold) && SameDebt(bill, sold))
                 && (Accounted(db, bill) <==> HoldsSome(bill, sold) && SameDebt(bill, sold))
  {
    var h, db := HistoryAfter(w, es, History({}, {})), StepAll(w, es).db;
    CompletedBillsAreSettled(w, es, History({}, {}));
    var bill := db.bills[id];
    sold :| sold in h.loads && Settled(db, sold) && Agrees(sold, bill, h);
    forall at: nat | SoldOnce(db, sold, at) && ChargedOnce(db, sold)
      ensures Settled(db, bill) <==> HoldsStretch(bill, sold) && SameDebt(bill, sold)
      ensures Accounted(db, bill) <==> HoldsSome(bill, sold) && SameDebt(bill, sold)
    {
      SettledIff(db, sold, bill, at);
      AccountedIff(db, sold, bill, at);
    }
  }
}
