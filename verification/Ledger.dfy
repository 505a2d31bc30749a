/** What the movement list says about a stock row: replaying it and reading its before/after chain. */
module Ledger {
  import opened StockPool

  /** The two quantities of a row. Movements run on two channels, one per quantity. */
  datatype Qty = Qty(onHand: int, reserved: int)

  /** A row that does not exist yet counts as empty. */
  function QtyOf(p: Pool, id: RowId): Qty {
    if id in p.rows then Qty(p.rows[id].onHand, p.rows[id].reserved) else Qty(0, 0)
  }

  predicate OnReservedChannel(k: Kind) {
    k.Reserved? || k.ReservationReleased?
  }

  function Channel(s: Qty, k: Kind): int {
    if OnReservedChannel(k) then s.reserved else s.onHand
  }

  function Apply(s: Qty, m: Movement): Qty {
    match m.kind
    case StockIn | TransferIn => s.(onHand := s.onHand + m.quantity)
    case StockOut | TransferOut | Damage | WriteOff => s.(onHand := s.onHand - m.quantity)
    case Adjustment => s.(onHand := m.quantity)
    case Reserved => s.(reserved := s.reserved + m.quantity)
    case ReservationReleased => s.(reserved := s.reserved - m.quantity)
  }

  function Next(s: Qty, id: RowId, m: Movement): Qty {
    if m.row == id then Apply(s, m) else s
  }

  function Replay(s: Qty, id: RowId, ms: seq<Movement>): Qty
    decreases |ms|
  {
    if ms == [] then s else Replay(Next(s, id, ms[0]), id, ms[1..])
  }

  /** Every movement of the row carries the true value of its channel before and after it. */
  predicate Chained(s: Qty, id: RowId, ms: seq<Movement>)
    decreases |ms|
  {
    ms == [] ||
    (var s' := Next(s, id, ms[0]);
     && (ms[0].row == id ==> ms[0].before == Channel(s, ms[0].kind) && ms[0].after == Channel(s', ms[0].kind))
     && Chained(s', id, ms[1..]))
  }

  function Added(p: Pool, q: Pool): seq<Movement>
    requires p.movements <= q.movements
  {
    q.movements[|p.movements|..]
  }

  /** `q` was reached from `p` by appending movements that account for every row's quantities;
      with `chained`, their before/after values are exact as well. */
  ghost predicate Explained(p: Pool, q: Pool, chained: bool) {
    && p.movements <= q.movements
    && (forall id :: QtyOf(q, id) == Replay(QtyOf(p, id), id, Added(p, q)))
    && (chained ==> forall id :: Chained(QtyOf(p, id), id, Added(p, q)))
  }

  lemma {:induction false} ReplayConcat(s: Qty, id: RowId, a: seq<Movement>, b: seq<Movement>)
    ensures Replay(s, id, a + b) == Replay(Replay(s, id, a), id, b)
    ensures Chained(s, id, a + b) <==> Chained(s, id, a) && Chained(Replay(s, id, a), id, b)
    decreases |a|
  {
    if a == [] {
      assert a + b == b;
    } else {
      assert (a + b)[1..] == a[1..] + b;
      ReplayConcat(Next(s, id, a[0]), id, a[1..], b);
    }
  }

  lemma ExplainedRefl(p: Pool)
    ensures Explained(p, p, true)
  {
    assert Added(p, p) == [];
  }

  lemma ExplainedTrans(p: Pool, q: Pool, r: Pool, chained: bool)
    requires Explained(p, q, chained) && Explained(q, r, chained)
    ensures Explained(p, r, chained)
  {
    assert Added(p, r) == Added(p, q) + Added(q, r);
    forall id
      ensures QtyOf(r, id) == Replay(QtyOf(p, id), id, Added(p, r))
      ensures chained ==> Chained(QtyOf(p, id), id, Added(p, r))
    {
      ReplayConcat(QtyOf(p, id), id, Added(p, q), Added(q, r));
    }
  }

  /** Posting one movement together with its effect on its row. */
  lemma PostExplained(p: Pool, q: Pool, m: Movement, chained: bool)
    requires q.movements == p.movements + [m]
    requires forall id :: QtyOf(q, id) == Next(QtyOf(p, id), id, m)
    requires chained ==> m.before == Channel(QtyOf(p, m.row), m.kind) && m.after == Channel(QtyOf(q, m.row), m.kind)
    ensures Explained(p, q, chained)
  {
    assert Added(p, q) == [m];
    forall id
      ensures Replay(QtyOf(p, id), id, [m]) == Next(QtyOf(p, id), id, m)
      ensures chained ==> Chained(QtyOf(p, id), id, [m])
    {
      assert [m][1..] == [];
      assert Replay(Next(QtyOf(p, id), id, m), id, []) == Next(QtyOf(p, id), id, m);
    }
  }

  predicate SameChannel(id: RowId, reserved: bool, m: Movement) {
    m.row == id && OnReservedChannel(m.kind) == reserved
  }

  lemma {:induction false} ChainHead(s: Qty, id: RowId, ms: seq<Movement>, j: nat)
    requires Chained(s, id, ms) && j < |ms| && ms[j].row == id
    requires forall k :: 0 <= k < j ==> !SameChannel(id, OnReservedChannel(ms[j].kind), ms[k])
    ensures ms[j].before == Channel(s, ms[j].kind)
    decreases j
  {
    if j > 0 {
      assert !SameChannel(id, OnReservedChannel(ms[j].kind), ms[0]);
      assert forall k :: 0 <= k < j - 1 ==> ms[1..][k] == ms[k + 1];
      ChainHead(Next(s, id, ms[0]), id, ms[1..], j - 1);
    }
  }

  /** The chain is unbroken: a movement starts from the value at which the previous movement of the
      same row and channel ended. */
  lemma {:induction false} ChainUnbroken(s: Qty, id: RowId, ms: seq<Movement>, i: nat, j: nat)
    requires Chained(s, id, ms) && i < j < |ms|
    requires ms[i].row == ms[j].row == id
    requires OnReservedChannel(ms[i].kind) == OnReservedChannel(ms[j].kind)
    requires forall k :: i < k < j ==> !SameChannel(id, OnReservedChannel(ms[j].kind), ms[k])
    ensures ms[j].before == ms[i].after
    decreases i
  {
    if i == 0 {
      assert forall k :: 0 <= k < j - 1 ==> ms[1..][k] == ms[k + 1];
      ChainHead(Next(s, id, ms[0]), id, ms[1..], j - 1);
    } else {
      assert forall k :: 0 <= k < |ms| - 1 ==> ms[1..][k] == ms[k + 1];
      ChainUnbroken(Next(s, id, ms[0]), id, ms[1..], i - 1, j - 1);
    }
  }
}
