/** Stock transactions that overlap. The repositories read a row, compute on the copy and save it,
    without a lock, so a transaction may commit on copies that others have made outdated. */
module Isolation {
  import opened StockPool
  import opened Ledger
  import opened Tables
  import opened StockOrchestration
  import opened StockProofs
  import opened BillCompletion

  /** The rows a transaction has read, to compute on, and the quantities on hand it had read before
      that, to report in its movements. A row it has not read before its commit it reads there. */
  datatype Copies = Copies(published: map<RowId, Row>, unpublished: map<RowId, Row>,
                           firstPublished: map<RowId, int>, firstUnpublished: map<RowId, int>)

  const NO_COPIES := Copies(map[], map[], map[], map[])

  /** The pool as the transaction sees it. */
  function Overlay(p: Pool, copies: map<RowId, Row>): Pool {
    p.(rows := map id <- p.rows :: if id in copies then copies[id] else p.rows[id])
  }

  predicate Writes(ms: seq<Movement>, id: RowId) {
    exists j :: 0 <= j < |ms| && ms[j].row == id
  }

  /** What the transaction saves of the pool `q` it arrived at: the rows it wrote, each of which has
      a movement, and the rows it created. */
  function Saved(p: Pool, q: Pool): Pool
    requires p.movements <= q.movements
  {
    q.(rows := map id <- q.rows :: if id in p.rows && !Writes(Added(p, q), id) then p.rows[id] else q.rows[id])
  }

  function Seen(db: Db, copies: Copies): Db {
    db.(published := Overlay(db.published, copies.published), unpublished := Overlay(db.unpublished, copies.unpublished))
  }

  /** A row's first movement reports the quantity read first; later ones read what the transaction wrote. */
  function Stamp(ms: seq<Movement>, firsts: map<RowId, int>): seq<Movement>
    decreases |ms|
  {
    if ms == [] then [] else
    [if ms[0].row in firsts then ms[0].(before := firsts[ms[0].row]) else ms[0]] + Stamp(ms[1..], firsts - {ms[0].row})
  }

  function StampedIn(p: Pool, q: Pool, firsts: map<RowId, int>): Pool
    requires p.movements <= q.movements
  {
    q.(movements := p.movements + Stamp(Added(p, q), firsts))
  }

  predicate Appends(db: Db, d: Db) {
    db.published.movements <= d.published.movements && db.unpublished.movements <= d.unpublished.movements
  }

  function SavedDb(db: Db, d: Db): Db
    requires Appends(db, d)
  {
    d.(published := Saved(db.published, d.published), unpublished := Saved(db.unpublished, d.unpublished))
  }

  function Stamped(db: Db, d: Db, copies: Copies): Db
    requires Appends(db, d)
  {
    d.(published := StampedIn(db.published, d.published, copies.firstPublished),
       unpublished := StampedIn(db.unpublished, d.unpublished, copies.firstUnpublished))
  }

  /** Publishing and adding unpublished stock read their rows once for the movement and once more, in
      the repository call, for the quantity; so do sales. */
  predicate ReadsTwice(call: StockCall) {
    call.Publish? || call.AddUnpublished?
  }

  function FirstsOf(call: StockCall, copies: Copies): Copies {
    if ReadsTwice(call) then copies else copies.(firstPublished := map[], firstUnpublished := map[])
  }

  /** Publishing compares with the quantity read first as well. */
  predicate Refuses(call: StockCall, copies: Copies) {
    call.Publish? && call.publish.unpublishedId in copies.firstUnpublished
    && call.publish.quantity > copies.firstUnpublished[call.publish.unpublishedId]
  }

  lemma TxAppends(db: Db, call: StockCall)
    requires Tx(db, call).Success?
    ensures Appends(db, Tx(db, call).value)
  {
    if call.CompleteBatch? {
      BatchAppends(db.published, call.inputs);
    }
  }

  lemma {:induction false} BatchAppends(p: Pool, inputs: seq<TransferOperation>)
    requires BatchTx(p, inputs).Success?
    ensures p.movements <= BatchTx(p, inputs).value.movements
    decreases |inputs|
  {
    if inputs != [] {
      BatchAppends(TransferTx(p, inputs[0]).value, inputs[1..]);
    }
  }

  lemma {:induction false} LinesAppend(p: Pool, bill: Bill, items: seq<BillItem>, user: Id)
    requires LinesTx(p, bill, items, user).Success?
    ensures p.movements <= LinesTx(p, bill, items, user).value.movements
    decreases |items|
  {
    if items != [] {
      LinesAppend(LineTx(p, bill, items[0], user).value, bill, items[1..], user);
    }
  }

  /** The commit of a stock call that has read `copies`. */
  function ExecOn(db: Db, call: StockCall, copies: Copies): Db {
    var r := Tx(Seen(db, copies), call);
    if r.Failure? || Refuses(call, copies) then db else
    TxAppends(Seen(db, copies), call);
    Stamped(db, SavedDb(db, r.value), FirstsOf(call, copies))
  }

  /** A step of a completion; its stock transaction has read `copies`. */
  function AdvanceOn(db: Db, p: Process, copies: Copies): (Db, Process) {
    if !(p.Process? && p.stage.Deduct?) then Advance(db, p) else
    var seen := Seen(db, copies);
    var r := LinesTx(SalePool(seen, p.bill), p.bill, p.bill.items, p.call.performedBy);
    if r.Failure? then (db, p.(stage := Failed(r.error))) else
    LinesAppend(SalePool(seen, p.bill), p.bill, p.bill.items, p.call.performedBy);
    (Stamped(db, SavedDb(db, WithSalePool(seen, p.bill, r.value)), copies), p.(stage := RecordCommission))
  }

  /** `d` differs from `db` in the stock tables only. */
  ghost predicate StockOnly(db: Db, d: Db) {
    d == db.(published := d.published, unpublished := d.unpublished, transfers := d.transfers)
  }

  lemma SavedDbFrame(db: Db, copies: Copies, d: Db)
    requires Appends(db, d) && StockOnly(Seen(db, copies), d)
    ensures forall firsts: Copies :: StockOnly(db, Stamped(db, SavedDb(db, d), firsts))
  {
  }

  lemma ExecOnFrame(db: Db, call: StockCall, copies: Copies)
    ensures StockOnly(db, ExecOn(db, call, copies))
  {
    var r := Tx(Seen(db, copies), call);
    if r.Success? && !Refuses(call, copies) {
      TxAppends(Seen(db, copies), call);
      ExecFrame(Seen(db, copies), call);
      SavedDbFrame(db, copies, r.value);
    }
  }

  /** Outside the stock transaction a step reads no rows; inside it, it changes the stock tables only. */
  lemma AdvanceOnFrame(db: Db, p: Process, copies: Copies)
    ensures var (d, q) := AdvanceOn(db, p, copies);
            if p.Process? && p.stage.Deduct?
            then StockOnly(db, d) && q.Process? && q == p.(stage := q.stage) && (q.stage.RecordCommission? || q.stage.Failed?)
            else (d, q) == Advance(db, p)
  {
    if p.Process? && p.stage.Deduct? {
      var r := LinesTx(SalePool(Seen(db, copies), p.bill), p.bill, p.bill.items, p.call.performedBy);
      if r.Success? {
        LinesAppend(SalePool(Seen(db, copies), p.bill), p.bill, p.bill.items, p.call.performedBy);
        SavedDbFrame(db, copies, WithSalePool(Seen(db, copies), p.bill, r.value));
      }
    }
  }

  // ---- rows and keys ----

  /** Copies were read from rows of this pool. */
  ghost predicate Fit(p: Pool, copies: map<RowId, Row>) {
    forall id <- copies :: id in p.rows && copies[id].key == p.rows[id].key
  }

  lemma OverlayGrows(p: Pool, copies: map<RowId, Row>)
    requires WellFormed(p) && Fit(p, copies)
    ensures Grows(p, Overlay(p, copies))
  {
  }

  lemma SavedGrows(p: Pool, copies: map<RowId, Row>, q: Pool)
    requires WellFormed(p) && Fit(p, copies) && Grows(Overlay(p, copies), q) && p.movements <= q.movements
    ensures Grows(p, Saved(p, q))
  {
    OverlayGrows(p, copies);
    GrowsTrans(p, Overlay(p, copies), q);
    forall id <- q.rows ensures Saved(p, q).rows[id].key == q.rows[id].key {
      assert id in p.rows ==> KeyOf(q, id) == KeyOf(p, id);
    }
  }

  // ---- replay ----

  predicate Adjusts(ms: seq<Movement>, id: RowId) {
    exists j :: 0 <= j < |ms| && ms[j].row == id && ms[j].kind.Adjustment?
  }

  /** The quantities the transaction read for a row it writes are still the stored ones; the quantity
      on hand does not matter where an adjustment overwrites it. */
  predicate RowCurrent(p: Pool, o: Pool, ms: seq<Movement>, id: RowId) {
    && QtyOf(o, id).reserved == QtyOf(p, id).reserved
    && (Adjusts(ms, id) || QtyOf(o, id).onHand == QtyOf(p, id).onHand)
  }

  ghost predicate ReadCurrent(p: Pool, o: Pool, ms: seq<Movement>) {
    forall id :: Writes(ms, id) ==> RowCurrent(p, o, ms, id)
  }

  ghost predicate ReadExact(p: Pool, o: Pool, ms: seq<Movement>) {
    forall id :: Writes(ms, id) ==> QtyOf(o, id) == QtyOf(p, id)
  }

  lemma HeadTail(ms: seq<Movement>, id: RowId)
    requires ms != []
    ensures Writes(ms, id) <==> ms[0].row == id || Writes(ms[1..], id)
    ensures Adjusts(ms, id) <==> (ms[0].row == id && ms[0].kind.Adjustment?) || Adjusts(ms[1..], id)
  {
    assert forall j :: 0 <= j < |ms| - 1 ==> ms[1..][j] == ms[j + 1];
    if Writes(ms, id) && ms[0].row != id {
      var j :| 0 <= j < |ms| && ms[j].row == id;
      assert ms[1..][j - 1].row == id;
    }
    if Adjusts(ms, id) && !(ms[0].row == id && ms[0].kind.Adjustment?) {
      var j :| 0 <= j < |ms| && ms[j].row == id && ms[j].kind.Adjustment?;
      assert ms[1..][j - 1] == ms[j];
    }
  }

  /** Replaying from other quantities shifts the result, except on hand after an adjustment. */
  lemma {:induction false} ReplayShift(s: Qty, t: Qty, id: RowId, ms: seq<Movement>)
    ensures Replay(s, id, ms).reserved - Replay(t, id, ms).reserved == s.reserved - t.reserved
    ensures Replay(s, id, ms).onHand - Replay(t, id, ms).onHand == if Adjusts(ms, id) then 0 else s.onHand - t.onHand
    decreases |ms|
  {
    if ms != [] {
      HeadTail(ms, id);
      ReplayShift(Next(s, id, ms[0]), Next(t, id, ms[0]), id, ms[1..]);
    }
  }

  lemma {:induction false} ReplayUnwritten(s: Qty, id: RowId, ms: seq<Movement>)
    requires !Writes(ms, id)
    ensures Replay(s, id, ms) == s && Chained(s, id, ms)
    decreases |ms|
  {
    if ms != [] {
      HeadTail(ms, id);
      ReplayUnwritten(s, id, ms[1..]);
    }
  }

  lemma SavedQty(p: Pool, q: Pool, id: RowId)
    requires p.movements <= q.movements && p.rows.Keys <= q.rows.Keys
    ensures QtyOf(Saved(p, q), id) == if id in p.rows && !Writes(Added(p, q), id) then QtyOf(p, id) else QtyOf(q, id)
  {
  }

  /** Whether a row's saved quantities are what replay makes of the stored ones. */
  lemma RowExplainedIff(p: Pool, copies: map<RowId, Row>, q: Pool, id: RowId)
    requires Explained(Overlay(p, copies), q, false) && p.rows.Keys <= q.rows.Keys
    ensures QtyOf(Saved(p, q), id) == Replay(QtyOf(p, id), id, Added(p, q))
       <==> (Writes(Added(p, q), id) ==> RowCurrent(p, Overlay(p, copies), Added(p, q), id))
  {
    var o, ms := Overlay(p, copies), Added(p, q);
    assert Added(o, q) == ms;
    SavedQty(p, q, id);
    if Writes(ms, id) {
      ReplayShift(QtyOf(o, id), QtyOf(p, id), id, ms);
    } else {
      ReplayUnwritten(QtyOf(o, id), id, ms);
      ReplayUnwritten(QtyOf(p, id), id, ms);
    }
  }

  /** After the commit replay still holds exactly when every row written was read at its current
      quantities. */
  lemma SavedExplainedIff(p: Pool, copies: map<RowId, Row>, q: Pool)
    requires Explained(Overlay(p, copies), q, false) && p.rows.Keys <= q.rows.Keys
    ensures Explained(p, Saved(p, q), false) <==> ReadCurrent(p, Overlay(p, copies), Added(p, q))
  {
    var ms := Added(p, q);
    assert Added(p, Saved(p, q)) == ms;
    forall id
      ensures QtyOf(Saved(p, q), id) == Replay(QtyOf(p, id), id, ms)
         <==> (Writes(ms, id) ==> RowCurrent(p, Overlay(p, copies), ms, id))
    {
      RowExplainedIff(p, copies, q, id);
    }
  }

  /** With exact copies the chain stays unbroken as well. */
  lemma SavedChained(p: Pool, copies: map<RowId, Row>, q: Pool, chained: bool)
    requires Explained(Overlay(p, copies), q, chained) && p.rows.Keys <= q.rows.Keys
    requires ReadExact(p, Overlay(p, copies), Added(p, q))
    ensures Explained(p, Saved(p, q), chained)
  {
    var o, ms := Overlay(p, copies), Added(p, q);
    SavedExplainedIff(p, copies, q);
    assert Added(p, Saved(p, q)) == ms == Added(o, q);
    forall id | chained ensures Chained(QtyOf(p, id), id, ms) {
      if !Writes(ms, id) {
        ReplayUnwritten(QtyOf(p, id), id, ms);
      }
    }
  }

  // ---- the quantities read first ----

  lemma {:induction false} StampKeeps(ms: seq<Movement>, firsts: map<RowId, int>)
    ensures |Stamp(ms, firsts)| == |ms|
    ensures forall j :: 0 <= j < |ms| ==> Stamp(ms, firsts)[j] == ms[j].(before := Stamp(ms, firsts)[j].before)
    decreases |ms|
  {
    if ms != [] {
      StampKeeps(ms[1..], firsts - {ms[0].row});
    }
  }

  lemma {:induction false} StampNothing(ms: seq<Movement>)
    ensures Stamp(ms, map[]) == ms
    decreases |ms|
  {
    if ms != [] {
      var none: map<RowId, int> := map[];
      assert none - {ms[0].row} == none;
      StampNothing(ms[1..]);
    }
  }

  lemma {:induction false} StampReplays(s: Qty, id: RowId, ms: seq<Movement>, firsts: map<RowId, int>)
    ensures Replay(s, id, Stamp(ms, firsts)) == Replay(s, id, ms)
    decreases |ms|
  {
    if ms != [] {
      StampReplays(Next(s, id, ms[0]), id, ms[1..], firsts - {ms[0].row});
      StampedHead(ms, firsts);
    }
  }

  lemma StampedHead(ms: seq<Movement>, firsts: map<RowId, int>)
    requires ms != []
    ensures Stamp(ms, firsts) != [] && Stamp(ms, firsts)[1..] == Stamp(ms[1..], firsts - {ms[0].row})
    ensures Stamp(ms, firsts)[0] == ms[0].(before := if ms[0].row in firsts then firsts[ms[0].row] else ms[0].before)
  {
  }

  predicate OnHandOnly(ms: seq<Movement>) {
    forall m <- ms :: !OnReservedChannel(m.kind)
  }

  /** A chain survives the stamping exactly when the row's first read was of what is stored. */
  lemma {:induction false} StampChainedIff(s: Qty, id: RowId, ms: seq<Movement>, firsts: map<RowId, int>)
    requires Chained(s, id, ms) && OnHandOnly(ms)
    ensures Chained(s, id, Stamp(ms, firsts)) <==> (Writes(ms, id) && id in firsts ==> firsts[id] == s.onHand)
    decreases |ms|
  {
    if ms != [] {
      HeadTail(ms, id);
      StampedHead(ms, firsts);
      assert ms[0] in ms && forall m <- ms[1..] :: m in ms;
      StampChainedIff(Next(s, id, ms[0]), id, ms[1..], firsts - {ms[0].row});
    }
  }

  predicate FirstsCurrent(p: Pool, ms: seq<Movement>, firsts: map<RowId, int>) {
    forall id <- firsts :: Writes(ms, id) ==> firsts[id] == QtyOf(p, id).onHand
  }

  lemma AddedStamped(p: Pool, q: Pool, firsts: map<RowId, int>)
    requires p.movements <= q.movements
    ensures p.movements <= StampedIn(p, q, firsts).movements
    ensures Added(p, StampedIn(p, q, firsts)) == Stamp(Added(p, q), firsts)
  {
  }

  predicate SameButBefore(a: seq<Movement>, b: seq<Movement>) {
    |a| == |b| && forall j :: 0 <= j < |a| ==> b[j] == a[j].(before := b[j].before)
  }

  lemma StampedSame(p: Pool, q: Pool, firsts: map<RowId, int>)
    requires p.movements <= q.movements
    ensures SameButBefore(q.movements, StampedIn(p, q, firsts).movements)
  {
    StampKeeps(Added(p, q), firsts);
    assert q.movements == p.movements + Added(p, q);
  }

  /** What a movement reports does not matter to replay. */
  lemma StampedReplaysIff(p: Pool, q: Pool, firsts: map<RowId, int>)
    requires p.movements <= q.movements
    ensures Explained(p, StampedIn(p, q, firsts), false) <==> Explained(p, q, false)
  {
    AddedStamped(p, q, firsts);
    forall id ensures Replay(QtyOf(p, id), id, Stamp(Added(p, q), firsts)) == Replay(QtyOf(p, id), id, Added(p, q)) {
      StampReplays(QtyOf(p, id), id, Added(p, q), firsts);
    }
    assert forall id :: QtyOf(StampedIn(p, q, firsts), id) == QtyOf(q, id);
  }

  lemma StampedChainedIff(p: Pool, q: Pool, firsts: map<RowId, int>)
    requires Explained(p, q, true) && OnHandOnly(Added(p, q))
    ensures Explained(p, StampedIn(p, q, firsts), true) <==> FirstsCurrent(p, Added(p, q), firsts)
  {
    AddedStamped(p, q, firsts);
    StampedReplaysIff(p, q, firsts);
    forall id
      ensures Chained(QtyOf(p, id), id, Stamp(Added(p, q), firsts)) <==>
              (Writes(Added(p, q), id) && id in firsts ==> firsts[id] == QtyOf(p, id).onHand)
    {
      StampChainedIff(QtyOf(p, id), id, Added(p, q), firsts);
    }
  }

  lemma StampedIsSame(p: Pool, q: Pool)
    requires p.movements <= q.movements
    ensures StampedIn(p, q, map[]) == q
  {
    StampNothing(Added(p, q));
  }

  // ---- the two pools together ----

  ghost predicate PoolsWellFormed(db: Db) {
    WellFormed(db.published) && WellFormed(db.unpublished)
  }

  ghost predicate BothGrow(a: Db, b: Db) {
    Grows(a.published, b.published) && Grows(a.unpublished, b.unpublished) && Appends(a, b)
  }

  /** Both pools got where they are by recorded movements. */
  ghost predicate BothExplained(a: Db, b: Db, chained: bool) {
    BothGrow(a, b) && Explained(a.published, b.published, chained) && Explained(a.unpublished, b.unpublished, true)
  }

  ghost predicate BothReplay(a: Db, b: Db) {
    Explained(a.published, b.published, false) && Explained(a.unpublished, b.unpublished, false)
  }

  ghost predicate BothFit(db: Db, copies: Copies) {
    Fit(db.published, copies.published) && Fit(db.unpublished, copies.unpublished)
  }

  /** What a transaction read of the rows it wrote when arriving at `d`. */
  ghost predicate BothCurrent(db: Db, copies: Copies, d: Db) {
    && Appends(db, d)
    && ReadCurrent(db.published, Overlay(db.published, copies.published), Added(db.published, d.published))
    && ReadCurrent(db.unpublished, Overlay(db.unpublished, copies.unpublished), Added(db.unpublished, d.unpublished))
  }

  function PoolOf(db: Db, published: bool): Pool {
    if published then db.published else db.unpublished
  }

  function CopiesIn(copies: Copies, published: bool): map<RowId, Row> {
    if published then copies.published else copies.unpublished
  }

  ghost predicate ExactIn(db: Db, copies: Copies, d: Db, published: bool) {
    var p := PoolOf(db, published);
    Appends(db, d) && ReadExact(p, Overlay(p, CopiesIn(copies, published)), Added(p, PoolOf(d, published)))
  }

  lemma SeenGrows(db: Db, copies: Copies)
    requires PoolsWellFormed(db) && BothFit(db, copies)
    ensures PoolsWellFormed(Seen(db, copies)) && BothGrow(db, Seen(db, copies))
  {
    OverlayGrows(db.published, copies.published);
    OverlayGrows(db.unpublished, copies.unpublished);
  }

  lemma SavedDbGrows(db: Db, copies: Copies, d: Db)
    requires PoolsWellFormed(db) && BothFit(db, copies) && BothGrow(Seen(db, copies), d)
    ensures BothGrow(db, SavedDb(db, d))
  {
    SavedGrows(db.published, copies.published, d.published);
    SavedGrows(db.unpublished, copies.unpublished, d.unpublished);
  }

  lemma StampedGrows(db: Db, d: Db, firsts: Copies)
    requires BothGrow(db, d)
    ensures BothGrow(db, Stamped(db, d, firsts))
  {
  }

  /** Saving what a transaction made of its copies keeps replay exactly when its reads are current. */
  lemma SavedDbReplaysIff(db: Db, copies: Copies, d: Db, firsts: Copies)
    requires BothGrow(Seen(db, copies), d) && BothReplay(Seen(db, copies), d)
    ensures BothReplay(db, Stamped(db, SavedDb(db, d), firsts)) <==> BothCurrent(db, copies, d)
  {
    SavedExplainedIff(db.published, copies.published, d.published);
    SavedExplainedIff(db.unpublished, copies.unpublished, d.unpublished);
    StampedReplaysIff(db.published, SavedDb(db, d).published, firsts.firstPublished);
    StampedReplaysIff(db.unpublished, SavedDb(db, d).unpublished, firsts.firstUnpublished);
  }

  function FirstsIn(copies: Copies, published: bool): map<RowId, int> {
    if published then copies.firstPublished else copies.firstUnpublished
  }

  /** In one of the pools, what the transaction read first of the rows it wrote is what is stored. */
  predicate FirstsCurrentIn(db: Db, d: Db, firsts: Copies, published: bool) {
    Appends(db, d) && FirstsCurrent(PoolOf(db, published), Added(PoolOf(db, published), PoolOf(d, published)), FirstsIn(firsts, published))
  }

  lemma SavedDbChained(db: Db, copies: Copies, d: Db, published: bool)
    requires Appends(db, d) && BothGrow(Seen(db, copies), d) && ExactIn(db, copies, d, published)
    requires Explained(PoolOf(Seen(db, copies), published), PoolOf(d, published), true)
    ensures Explained(PoolOf(db, published), PoolOf(SavedDb(db, d), published), true)
  {
    SavedChained(PoolOf(db, published), CopiesIn(copies, published), PoolOf(d, published), true);
  }

  lemma StampedDbChained(db: Db, copies: Copies, d: Db, firsts: Copies, published: bool)
    requires Appends(db, d) && BothGrow(Seen(db, copies), d) && ExactIn(db, copies, d, published)
    requires Explained(PoolOf(Seen(db, copies), published), PoolOf(d, published), true)
    requires FirstsIn(firsts, published) == map[] || OnHandOnly(Added(PoolOf(db, published), PoolOf(d, published)))
    requires FirstsCurrentIn(db, d, firsts, published)
    ensures Explained(PoolOf(db, published), PoolOf(Stamped(db, SavedDb(db, d), firsts), published), true)
  {
    SavedDbChained(db, copies, d, published);
    var p, q := PoolOf(db, published), PoolOf(SavedDb(db, d), published);
    if FirstsIn(firsts, published) == map[] {
      StampedIsSame(p, q);
    } else {
      StampedChainedIff(p, q, FirstsIn(firsts, published));
    }
  }

  /** The copies are the stored rows. */
  predicate Fresh(p: Pool, copies: map<RowId, Row>) {
    forall id <- copies :: id in p.rows && copies[id] == p.rows[id]
  }

  lemma FreshOverlay(p: Pool, copies: map<RowId, Row>)
    requires Fresh(p, copies)
    ensures Overlay(p, copies) == p
  {
    assert Overlay(p, copies).rows == p.rows;
  }

  /** What reads twice posts movements of the quantity on hand only. */
  lemma FirstsOnHand(db: Db, call: StockCall)
    requires ReadsTwice(call) && Tx(db, call).Success?
    ensures Appends(db, Tx(db, call).value)
    ensures OnHandOnly(Added(db.published, Tx(db, call).value.published))
    ensures OnHandOnly(Added(db.unpublished, Tx(db, call).value.unpublished))
  {
  }

  lemma {:induction false} ChainDetermines(s: Qty, id: RowId, a: seq<Movement>, b: seq<Movement>)
    requires |a| == |b| && forall j :: 0 <= j < |a| ==> b[j] == a[j].(before := b[j].before)
    requires Chained(s, id, a) && Chained(s, id, b)
    ensures forall j :: 0 <= j < |a| && a[j].row == id ==> b[j] == a[j]
    decreases |a|
  {
    if a != [] {
      assert forall j :: 0 <= j < |a| - 1 ==> a[1..][j] == a[j + 1] && b[1..][j] == b[j + 1];
      ChainDetermines(Next(s, id, a[0]), id, a[1..], b[1..]);
      forall j | 0 <= j < |a| && a[j].row == id ensures b[j] == a[j] {
        assert j > 0 ==> a[1..][j - 1] == a[j] && b[1..][j - 1] == b[j];
      }
    }
  }

  lemma StampedMovementFresh(s: Qty, ms: seq<Movement>, firsts: map<RowId, int>, j: nat)
    requires j < |ms| == |Stamp(ms, firsts)| && Chained(s, ms[j].row, ms) && OnHandOnly(ms)
    requires ms[j].row in firsts ==> firsts[ms[j].row] == s.onHand
    ensures Stamp(ms, firsts)[j] == ms[j]
  {
    StampKeeps(ms, firsts);
    StampChainedIff(s, ms[j].row, ms, firsts);
    ChainDetermines(s, ms[j].row, ms, Stamp(ms, firsts));
  }

  lemma StampFresh(p: Pool, ms: seq<Movement>, firsts: map<RowId, int>)
    requires (forall id :: Chained(QtyOf(p, id), id, ms)) && OnHandOnly(ms) && FirstsCurrent(p, ms, firsts)
    ensures Stamp(ms, firsts) == ms
  {
    StampKeeps(ms, firsts);
    forall j | 0 <= j < |ms| ensures Stamp(ms, firsts)[j] == ms[j] {
      StampedMovementFresh(QtyOf(p, ms[j].row), ms, firsts, j);
    }
  }

  /** Reading first what is stored changes nothing. */
  lemma StampedFresh(p: Pool, q: Pool, firsts: map<RowId, int>)
    requires Explained(p, q, true) && OnHandOnly(Added(p, q)) && FirstsCurrent(p, Added(p, q), firsts)
    ensures StampedIn(p, q, firsts) == q
  {
    StampFresh(p, Added(p, q), firsts);
  }

  predicate FirstsFresh(p: Pool, firsts: map<RowId, int>) {
    forall id <- firsts :: id in p.rows && firsts[id] == p.rows[id].onHand
  }

  lemma StampedCallFresh(db: Db, call: StockCall, copies: Copies)
    requires PoolsWellFormed(db) && Tx(db, call).Success?
    requires FirstsFresh(db.published, copies.firstPublished) && FirstsFresh(db.unpublished, copies.firstUnpublished)
    ensures Appends(db, Exec(db, call)) && Stamped(db, Exec(db, call), FirstsOf(call, copies)) == Exec(db, call)
  {
    var d := Exec(db, call);
    ExecExplained(db, call);
    if ReadsTwice(call) {
      FirstsOnHand(db, call);
      StampedFresh(db.published, d.published, copies.firstPublished);
      StampedFresh(db.unpublished, d.unpublished, copies.firstUnpublished);
    } else {
      StampedIsSame(db.published, d.published);
      StampedIsSame(db.unpublished, d.unpublished);
    }
  }

  lemma SavedCallFresh(db: Db, call: StockCall)
    requires PoolsWellFormed(db) && Tx(db, call).Success?
    ensures Appends(db, Exec(db, call)) && SavedDb(db, Exec(db, call)) == Exec(db, call)
  {
    ExecExplained(db, call);
    SavedIsAll(db.published, Exec(db, call).published);
    SavedIsAll(db.unpublished, Exec(db, call).unpublished);
  }

  lemma FreshNotRefused(db: Db, call: StockCall, copies: Copies)
    requires Tx(db, call).Success? && FirstsFresh(db.unpublished, copies.firstUnpublished)
    ensures !Refuses(call, copies)
  {
  }

  /** Transactions that do not overlap are the transactions of the service: on fresh reads the commit
      is the isolated call. */
  lemma SerialCommit(db: Db, call: StockCall, copies: Copies)
    requires PoolsWellFormed(db) && Fresh(db.published, copies.published) && Fresh(db.unpublished, copies.unpublished)
    requires FirstsFresh(db.published, copies.firstPublished) && FirstsFresh(db.unpublished, copies.firstUnpublished)
    ensures ExecOn(db, call, copies) == Exec(db, call)
  {
    FreshOverlay(db.published, copies.published);
    FreshOverlay(db.unpublished, copies.unpublished);
    assert Seen(db, copies) == db;
    if Tx(db, call).Success? {
      FreshNotRefused(db, call, copies);
      SavedCallFresh(db, call);
      StampedCallFresh(db, call, copies);
    }
  }

  lemma SavedIsAll(p: Pool, q: Pool)
    requires WellFormed(p) && Grows(p, q) && Explained(p, q, false)
    ensures Saved(p, q) == q
  {
    forall id <- q.rows ensures Saved(p, q).rows[id] == q.rows[id] {
      if id in p.rows && !Writes(Added(p, q), id) {
        ReplayUnwritten(QtyOf(p, id), id, Added(p, q));
        assert KeyOf(q, id) == KeyOf(p, id) && QtyOf(q, id) == QtyOf(p, id);
      }
    }
    assert Saved(p, q).rows == q.rows;
  }

  // ---- an outdated first read ----

  /** The commit of an addition of unpublished stock whose computing read is fresh. */
  lemma AddUnpublishedOn(db: Db, op: AddUnpublishedOperation, firsts: map<RowId, int>) returns (q: Pool)
    requires PoolsWellFormed(db) && op.key in db.unpublished.index
    ensures Explained(db.unpublished, q, true) && OnHandOnly(Added(db.unpublished, q))
    ensures Writes(Added(db.unpublished, q), db.unpublished.index[op.key])
    ensures ExecOn(db, AddUnpublished(op), NO_COPIES.(firstUnpublished := firsts))
         == db.(unpublished := StampedIn(db.unpublished, q, firsts))
  {
    var call, copies := AddUnpublished(op), NO_COPIES.(firstUnpublished := firsts);
    FreshOverlay(db.published, map[]);
    FreshOverlay(db.unpublished, map[]);
    assert Seen(db, copies) == db;
    ExecExplained(db, call);
    FirstsOnHand(db, call);
    SavedCallFresh(db, call);
    StampedIsSame(db.published, db.published);
    q := Exec(db, call).unpublished;
    assert Added(db.unpublished, q)[0].row == db.unpublished.index[op.key];
  }

  /** Where the quantity reported comes from an outdated read and the quantity computed from a current
      one, replay goes on holding and the chain of before and after values breaks. */
  lemma OutdatedFirstBreaksChain(db: Db, op: AddUnpublishedOperation, first: int)
    requires PoolsWellFormed(db) && op.key in db.unpublished.index
    requires first != QtyOf(db.unpublished, db.unpublished.index[op.key]).onHand
    ensures var id := db.unpublished.index[op.key];
            var d := ExecOn(db, AddUnpublished(op), NO_COPIES.(firstUnpublished := map[id := first]));
            BothReplay(db, d) && !Explained(db.unpublished, d.unpublished, true)
  {
    var id := db.unpublished.index[op.key];
    var q := AddUnpublishedOn(db, op, map[id := first]);
    StampedReplaysIff(db.unpublished, q, map[id := first]);
    StampedChainedIff(db.unpublished, q, map[id := first]);
    ExplainedRefl(db.published);
  }

  // ---- a lost update ----

  /** Two overlapping additions of 5 to a row of 10 leave 15 and two movements: replay gives 20. */
  lemma OverlappingAddsLoseOne(db: Db, id: RowId, op: StockOperation)
    requires op.inventoryId == id && op.quantity == 5
    requires id in db.published.rows && db.published.rows[id].onHand == 10 && db.published.movements == []
    ensures var copies := NO_COPIES.(published := map[id := db.published.rows[id]]);
            var d := ExecOn(ExecOn(db, Add(op), copies), Add(op), copies);
            && id in d.published.rows && d.published.rows[id].onHand == 15 && |d.published.movements| == 2
            && Replay(Qty(10, db.published.rows[id].reserved), id, d.published.movements).onHand == 20
  {
    var copies := NO_COPIES.(published := map[id := db.published.rows[id]]);
    var d1 := ExecOn(db, Add(op), copies);
    var m := Movement(id, StockIn, 5, 10, 15, op.meta);
    AddOn(db, op, copies);
    AddOn(d1, op, copies);
    var d := ExecOn(d1, Add(op), copies);
    assert d.published.movements == [m, m];
    assert [m, m][1..] == [m] && [m][1..] == [];
    var s := Qty(10, db.published.rows[id].reserved);
    assert Replay(s, id, [m, m]) == Replay(Next(s, id, m), id, [m]);
    assert Replay(Next(s, id, m), id, [m]) == Replay(Next(Next(s, id, m), id, m), id, []);
  }

  lemma AddOn(db: Db, op: StockOperation, copies: Copies)
    requires op.inventoryId in db.published.rows && op.inventoryId in copies.published
    ensures var id, d := op.inventoryId, ExecOn(db, Add(op), copies);
            var before := copies.published[id].onHand;
            && id in d.published.rows && d.published.rows[id] == copies.published[id].(onHand := before + op.quantity)
            && d.published.movements
               == db.published.movements + [Movement(id, StockIn, op.quantity, before, before + op.quantity, op.meta)]
  {
    var seen := Seen(db, copies);
    var q := Tx(seen, Add(op)).value.published;
    assert Added(db.published, q)[0].row == op.inventoryId;
    var saved := SavedDb(db, Tx(seen, Add(op)).value);
    StampedIsSame(db.published, saved.published);
    StampedIsSame(db.unpublished, saved.unpublished);
  }
}
