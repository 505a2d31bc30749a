/** Properties of one bill's completion: the stock it takes, and what it does to its customer. */
module BillProofs {
  import opened Wrappers
  import opened StockPool
  import opened Ledger
  import opened Tables
  import opened StockProofs
  import opened BillCompletion

  // ---- aggregate demand ----

  /** The quantity of a product over all lines, repeated products included. */
  function Demand(items: seq<BillItem>, product: Id): int
    decreases |items|
  {
    if items == [] then 0 else
    var last := items[|items| - 1];
    Demand(items[..|items| - 1], product) + (if last.product == product then last.quantity else 0)
  }

  predicate Stocked(p: Pool, bill: Bill, item: BillItem, demand: int) {
    && LineKey(bill, item) in p.index
    && p.index[LineKey(bill, item)] in p.rows
    && demand <= p.rows[p.index[LineKey(bill, item)]].onHand
  }

  /** The lines up to and including line `i` ask for no more of its product than is on hand. */
  predicate LineCovered(p: Pool, bill: Bill, items: seq<BillItem>, i: nat)
    requires i < |items|
  {
    Stocked(p, bill, items[i], Demand(items[..i + 1], items[i].product))
  }

  predicate LinesCovered(p: Pool, bill: Bill, items: seq<BillItem>) {
    forall i :: 0 <= i < |items| ==> LineCovered(p, bill, items, i)
  }

  /** For every product on the bill the sum of its lines is on hand. */
  predicate DemandCovered(p: Pool, bill: Bill, items: seq<BillItem>) {
    forall i :: 0 <= i < |items| ==> Stocked(p, bill, items[i], Demand(items, items[i].product))
  }

  /** What the sale takes from the row `id`. */
  function Sold(p: Pool, bill: Bill, items: seq<BillItem>, id: RowId): int {
    if id in p.rows && p.rows[id].key.organization == bill.organization && p.rows[id].key.location == bill.location
    then Demand(items, p.rows[id].key.product) else 0
  }

  /** `m` is the movement of selling `item` on `bill`, posted to the item's row. */
  predicate IsSaleMovement(p: Pool, m: Movement, bill: Bill, item: BillItem) {
    && m.kind.StockOut? && m.quantity == item.quantity
    && m.meta.performedBy.Some? && m.meta == SaleMeta(bill, item, m.meta.performedBy.value)
    && KeyOf(p, m.row) == Some(LineKey(bill, item))
  }

  /** The pool after a sale, described without running it: every product's row is lowered by the
      product's demand, nothing else changes, and each line has its movement, in order. */
  ghost predicate SaleResult(p: Pool, bill: Bill, items: seq<BillItem>, q: Pool) {
    && Grows(p, q) && q.rows.Keys == p.rows.Keys && Explained(p, q, true)
    && (forall id :: QtyOf(q, id) == Qty(QtyOf(p, id).onHand - Sold(p, bill, items, id), QtyOf(p, id).reserved))
    && |q.movements| == |p.movements| + |items|
    && (forall j :: 0 <= j < |items| ==> IsSaleMovement(p, q.movements[|p.movements| + j], bill, items[j]))
  }

  lemma {:induction false} LinesSnoc(p: Pool, bill: Bill, items: seq<BillItem>, item: BillItem, user: Id)
    ensures LinesTx(p, bill, items + [item], user)
         == if LinesTx(p, bill, items, user).Failure? then LinesTx(p, bill, items, user)
            else LineTx(LinesTx(p, bill, items, user).value, bill, item, user)
    decreases |items|
  {
    if items == [] {
      assert (items + [item])[1..] == [];
    } else {
      assert (items + [item])[1..] == items[1..] + [item];
      if LineTx(p, bill, items[0], user).Success? {
        LinesSnoc(LineTx(p, bill, items[0], user).value, bill, items[1..], item, user);
      }
    }
  }

  lemma LinePosts(p: Pool, bill: Bill, item: BillItem, user: Id)
    requires WellFormed(p) && LineTx(p, bill, item, user).Success?
    ensures var q := LineTx(p, bill, item, user).value;
            && |q.movements| == |p.movements| + 1 && q.rows.Keys == p.rows.Keys
            && Posts(p, q, q.movements[|p.movements|], true)
            && IsSaleMovement(p, q.movements[|p.movements|], bill, item)
  {
  }

  lemma LinesCoveredSnoc(p: Pool, bill: Bill, items: seq<BillItem>)
    requires items != []
    ensures LinesCovered(p, bill, items)
       <==> LinesCovered(p, bill, items[..|items| - 1]) && LineCovered(p, bill, items, |items| - 1)
  {
    var init := items[..|items| - 1];
    forall i | 0 <= i < |init| ensures LineCovered(p, bill, init, i) <==> LineCovered(p, bill, items, i) {
      assert init[..i + 1] == items[..i + 1];
    }
    if LinesCovered(p, bill, init) && LineCovered(p, bill, items, |items| - 1) {
      forall i | 0 <= i < |items| ensures LineCovered(p, bill, items, i) {
        assert i < |init| ==> LineCovered(p, bill, init, i);
      }
    }
  }

  /** The line-by-line loop succeeds exactly when no prefix of the lines asks for more of a product
      than is on hand. */
  lemma {:induction false} LinesSucceedIffCovered(p: Pool, bill: Bill, items: seq<BillItem>, user: Id)
    requires WellFormed(p)
    ensures LinesTx(p, bill, items, user).Success? <==> LinesCovered(p, bill, items)
    ensures LinesTx(p, bill, items, user).Success? ==> SaleResult(p, bill, items, LinesTx(p, bill, items, user).value)
    decreases |items|
  {
    if items == [] {
      GrowsRefl(p);
    } else {
      var init, item := items[..|items| - 1], items[|items| - 1];
      assert items == init + [item];
      LinesSnoc(p, bill, init, item, user);
      LinesSucceedIffCovered(p, bill, init, user);
      LinesCoveredSnoc(p, bill, items);
      if LinesTx(p, bill, init, user).Success? {
        var q := LinesTx(p, bill, init, user).value;
        LastLineSucceeds(p, bill, items, q, user);
        if LineTx(q, bill, item, user).Success? {
          LinePosts(q, bill, item, user);
          LastLineResult(p, bill, items, q, LineTx(q, bill, item, user).value);
        }
      }
    }
  }

  lemma LastLineSucceeds(p: Pool, bill: Bill, items: seq<BillItem>, q: Pool, user: Id)
    requires items != [] && WellFormed(p) && SaleResult(p, bill, items[..|items| - 1], q)
    ensures LineTx(q, bill, items[|items| - 1], user).Success? <==> LineCovered(p, bill, items, |items| - 1)
  {
    var init, item := items[..|items| - 1], items[|items| - 1];
    assert items[..|items| - 1 + 1] == items;
    var key := LineKey(bill, item);
    assert RowFor(q, key) == RowFor(p, key);
    if key in q.index {
      var id := q.index[key];
      assert KeyOf(q, id) == KeyOf(p, id);
      assert QtyOf(q, id).onHand == QtyOf(p, id).onHand - Sold(p, bill, init, id);
    }
  }

  lemma LastLineResult(p: Pool, bill: Bill, items: seq<BillItem>, q: Pool, r: Pool)
    requires items != [] && WellFormed(p) && SaleResult(p, bill, items[..|items| - 1], q)
    requires |r.movements| == |q.movements| + 1 && r.rows.Keys == q.rows.Keys
    requires Posts(q, r, r.movements[|q.movements|], true)
    requires IsSaleMovement(q, r.movements[|q.movements|], bill, items[|items| - 1])
    ensures SaleResult(p, bill, items, r)
  {
    var m := r.movements[|q.movements|];
    PostsGrows(q, r, m, true);
    GrowsTrans(p, q, r);
    ExplainedTrans(p, q, r, true);
    assert KeyOf(q, m.row) == KeyOf(p, m.row);
    assert items[..|items| - 1] <= items;
    forall id
      ensures QtyOf(r, id) == Qty(QtyOf(p, id).onHand - Sold(p, bill, items, id), QtyOf(p, id).reserved)
    {
      LastLineQty(p, bill, items, q, r, m, id);
    }
    SaleMovementsSnoc(p, bill, items, q.movements, r.movements);
  }

  lemma SaleMovementsSnoc(p: Pool, bill: Bill, items: seq<BillItem>, ms: seq<Movement>, ms': seq<Movement>)
    requires items != [] && |ms| == |p.movements| + |items| - 1 && |ms'| == |ms| + 1 && ms <= ms'
    requires forall j :: 0 <= j < |items| - 1 ==> IsSaleMovement(p, ms[|p.movements| + j], bill, items[j])
    requires IsSaleMovement(p, ms'[|ms|], bill, items[|items| - 1])
    ensures forall j :: 0 <= j < |items| ==> IsSaleMovement(p, ms'[|p.movements| + j], bill, items[j])
  {
  }

  lemma LastLineQty(p: Pool, bill: Bill, items: seq<BillItem>, q: Pool, r: Pool, m: Movement, id: RowId)
    requires items != [] && WellFormed(p) && Grows(p, q) && p.rows.Keys == q.rows.Keys
    requires QtyOf(q, id) == Qty(QtyOf(p, id).onHand - Sold(p, bill, items[..|items| - 1], id), QtyOf(p, id).reserved)
    requires Posts(q, r, m, true) && m.kind.StockOut? && m.quantity == items[|items| - 1].quantity
    requires KeyOf(q, m.row) == Some(LineKey(bill, items[|items| - 1]))
    ensures QtyOf(r, id) == Qty(QtyOf(p, id).onHand - Sold(p, bill, items, id), QtyOf(p, id).reserved)
  {
    OneRowPerKey(p, q, id, m.row, LineKey(bill, items[|items| - 1]));
  }

  lemma OneRowPerKey(p: Pool, q: Pool, id: RowId, row: RowId, key: Key)
    requires WellFormed(p) && Grows(p, q) && row in p.rows && KeyOf(q, row) == Some(key)
    ensures id in p.rows && p.rows[id].key == key <==> id == row
  {
    assert KeyOf(q, row) == KeyOf(p, row);
  }

  lemma DemandCoveredSnoc(p: Pool, bill: Bill, items: seq<BillItem>)
    requires items != [] && forall item <- items :: 0 <= item.quantity
    ensures var n := |items| - 1;
            DemandCovered(p, bill, items) <==> DemandCovered(p, bill, items[..n]) && LineCovered(p, bill, items, n)
  {
    var n := |items| - 1;
    var init, last := items[..n], items[n];
    assert items[..n + 1] == items;
    if DemandCovered(p, bill, items) {
      assert Stocked(p, bill, items[n], Demand(items, last.product));
      forall i | 0 <= i < n ensures Stocked(p, bill, init[i], Demand(init, init[i].product)) {
        assert init[i] == items[i] && Stocked(p, bill, items[i], Demand(items, items[i].product));
      }
    }
    if DemandCovered(p, bill, init) && LineCovered(p, bill, items, n) {
      forall i | 0 <= i < |items| ensures Stocked(p, bill, items[i], Demand(items, items[i].product)) {
        assert items[i].product != last.product ==> items[i] == init[i];
      }
    }
  }

  lemma {:induction false} CoveredIffDemandCovered(p: Pool, bill: Bill, items: seq<BillItem>)
    requires forall item <- items :: 0 <= item.quantity
    ensures LinesCovered(p, bill, items) <==> DemandCovered(p, bill, items)
    decreases |items|
  {
    if items != [] {
      CoveredIffDemandCovered(p, bill, items[..|items| - 1]);
      LinesCoveredSnoc(p, bill, items);
      DemandCoveredSnoc(p, bill, items);
    }
  }

  /** The stock step of a completion, official or black: with non-negative lines it goes through
      exactly when every product's total demand is on hand, and then takes exactly that; otherwise
      the tables stay as they were. */
  lemma StockStepMeetsDemand(db: Db, p: Process)
    requires p.Process? && p.stage == Deduct && WellFormed(SalePool(db, p.bill))
    requires forall item <- p.bill.items :: 0 <= item.quantity
    ensures var (db1, p1) := Advance(db, p);
            if DemandCovered(SalePool(db, p.bill), p.bill, p.bill.items)
            then p1 == p.(stage := RecordCommission) && db1 == WithSalePool(db, p.bill, SalePool(db1, p.bill))
                 && SaleResult(SalePool(db, p.bill), p.bill, p.bill.items, SalePool(db1, p.bill))
            else p1.Process? && p1.stage.Failed? && db1 == db
  {
    CoveredIffDemandCovered(SalePool(db, p.bill), p.bill, p.bill.items);
    LinesSucceedIffCovered(SalePool(db, p.bill), p.bill, p.bill.items, p.call.performedBy);
  }
}
