/** The stock-move log and the quantities derived from it: the balance of
    one (product, warehouse) pair, the stock of one product over all
    warehouses, the continuity of the `balance_after` snapshots and the
    drift between a product's cached `total_stock` and its log. */
module Ledger {
  import opened Basics

  /** Row ids: SQLite AUTOINCREMENT keys start at 1. */
  type Id = n: int | n > 0 witness 1

  datatype Movement = In | Out

  /** A row of `stock_moves`: `quantity` and `balance_after` are INTEGER,
      `warehouse_id` and `product_id` are NOT NULL. */
  datatype Move = Move(
    product: Id,
    warehouse: Id,
    operation: Id,
    quantity: int,
    movement: Movement,
    balanceAfter: int)

  /** The signed effect of one move: `+quantity` for 'in', `-quantity` otherwise. */
  function Delta(m: Move): int {
    if m.movement == In then m.quantity else -m.quantity
  }

  function DeltaAt(m: Move, p: Id, w: Id): int {
    if m.product == p && m.warehouse == w then Delta(m) else 0
  }

  function DeltaOf(m: Move, p: Id): int {
    if m.product == p then Delta(m) else 0
  }

  /** The balance query of the confirm handler:
      `COALESCE(SUM(CASE WHEN movement_type = 'in' THEN quantity ELSE -quantity END), 0)`
      over the moves of one (product, warehouse) pair. */
  function BalanceOf(moves: seq<Move>, p: Id, w: Id): int {
    if moves == [] then 0 else DeltaAt(moves[0], p, w) + BalanceOf(moves[1..], p, w)
  }

  /** Sum of the signed deltas of one product across all warehouses. */
  function StockOf(moves: seq<Move>, p: Id): int {
    if moves == [] then 0 else DeltaOf(moves[0], p) + StockOf(moves[1..], p)
  }

  /** Appending a move changes the balance of its own pair by its delta and
      leaves every other pair alone. */
  lemma {:induction false} BalanceOfAppend(moves: seq<Move>, m: Move, p: Id, w: Id)
    ensures BalanceOf(moves + [m], p, w) == BalanceOf(moves, p, w) + DeltaAt(m, p, w)
  {
    if moves != [] {
      assert (moves + [m])[1..] == moves[1..] + [m];
      BalanceOfAppend(moves[1..], m, p, w);
    }
  }

  /** Appending a move changes its product's stock by its delta. */
  lemma {:induction false} StockOfAppend(moves: seq<Move>, m: Move, p: Id)
    ensures StockOf(moves + [m], p) == StockOf(moves, p) + DeltaOf(m, p)
  {
    if moves != [] {
      assert (moves + [m])[1..] == moves[1..] + [m];
      StockOfAppend(moves[1..], m, p);
    }
  }

  /** The balance read from the log before an append, plus the new move's
      own delta, is the balance the log gives right after it. */
  lemma SnapshotAfterAppend(moves: seq<Move>, m: Move)
    ensures BalanceOf(moves + [m], m.product, m.warehouse)
         == BalanceOf(moves, m.product, m.warehouse) + Delta(m)
  {
    BalanceOfAppend(moves, m, m.product, m.warehouse);
  }

  /** Every move's `balance_after` equals the balance of its pair over the
      log up to and including that move. */
  ghost predicate Continuous(moves: seq<Move>) {
    forall i | 0 <= i < |moves| ::
      moves[i].balanceAfter == BalanceOf(moves[..i + 1], moves[i].product, moves[i].warehouse)
  }

  /** Appending a move whose snapshot is right keeps the log continuous. */
  lemma ContinuousAppend(moves: seq<Move>, m: Move)
    requires Continuous(moves)
    requires m.balanceAfter == BalanceOf(moves, m.product, m.warehouse) + Delta(m)
    ensures Continuous(moves + [m])
  {
    var ms := moves + [m];
    forall i | 0 <= i < |ms|
      ensures ms[i].balanceAfter == BalanceOf(ms[..i + 1], ms[i].product, ms[i].warehouse)
    {
      if i < |moves| {
        assert ms[..i + 1] == moves[..i + 1];
      } else {
        assert ms[..i + 1] == ms;
        SnapshotAfterAppend(moves, m);
      }
    }
  }

  /** A prefix of a continuous log is continuous. */
  lemma ContinuousPrefix(moves: seq<Move>, n: nat)
    requires Continuous(moves) && n <= |moves|
    ensures Continuous(moves[..n])
  {
    var ps := moves[..n];
    forall i | 0 <= i < |ps|
      ensures ps[i].balanceAfter == BalanceOf(ps[..i + 1], ps[i].product, ps[i].warehouse)
    {
      assert ps[..i + 1] == moves[..i + 1];
    }
  }

  /** The `balance_after` of the latest move of a pair, if it has any. */
  function LastSnapshot(moves: seq<Move>, p: Id, w: Id): Option<int> {
    if moves == [] then None
    else
      var m := moves[|moves| - 1];
      if m.product == p && m.warehouse == w then Some(m.balanceAfter)
      else LastSnapshot(moves[..|moves| - 1], p, w)
  }

  /** On a continuous log, summing the deltas of a pair and reading the
      latest snapshot of that pair agree; a pair without moves has balance 0. */
  lemma {:induction false} SnapshotMatchesSum(moves: seq<Move>, p: Id, w: Id)
    requires Continuous(moves)
    ensures LastSnapshot(moves, p, w) == None ==> BalanceOf(moves, p, w) == 0
    ensures LastSnapshot(moves, p, w).Some? ==> LastSnapshot(moves, p, w).value == BalanceOf(moves, p, w)
  {
    if moves != [] {
      var n := |moves| - 1;
      var init, m := moves[..n], moves[n];
      assert moves == init + [m];
      BalanceOfAppend(init, m, p, w);
      if m.product == p && m.warehouse == w {
        assert moves[..n + 1] == moves;
      } else {
        ContinuousPrefix(moves, n);
        SnapshotMatchesSum(init, p, w);
      }
    }
  }

  /** How far a product's cached `total_stock` is from its log. */
  function Drift(totalStock: map<Id, int>, moves: seq<Move>, p: Id): int
    requires p in totalStock
  {
    totalStock[p] - StockOf(moves, p)
  }

  /** The cache agrees with the log for every product. */
  predicate Reconciled(totalStock: map<Id, int>, moves: seq<Move>) {
    forall p | p in totalStock :: Drift(totalStock, moves, p) == 0
  }

  /** Logging a move and moving its product's cache by the same signed
      amount leaves the drift of every product as it was. */
  lemma RecordKeepsDrift(totalStock: map<Id, int>, moves: seq<Move>, m: Move)
    requires m.product in totalStock
    ensures var ts := totalStock[m.product := totalStock[m.product] + Delta(m)];
            forall p | p in ts :: p in totalStock && Drift(ts, moves + [m], p) == Drift(totalStock, moves, p)
  {
    forall p | p in totalStock {
      StockOfAppend(moves, m, p);
    }
  }

  /** Logging a move without touching the cache shifts its product's drift
      by the opposite of the move's delta and no other product's. */
  lemma UnrecordedMoveShiftsDrift(totalStock: map<Id, int>, moves: seq<Move>, m: Move)
    ensures forall p | p in totalStock ::
      Drift(totalStock, moves + [m], p) == Drift(totalStock, moves, p) - DeltaOf(m, p)
  {
    forall p | p in totalStock {
      StockOfAppend(moves, m, p);
    }
  }

  /** An 'out' at one warehouse followed by an 'in' of the same quantity at
      another moves that quantity between the two balances, leaves every
      other pair alone and does not change the product's stock. */
  lemma {:induction false} TransferBetweenWarehouses(moves: seq<Move>, outMove: Move, inMove: Move, p: Id, w: Id)
    requires outMove.movement == Out && inMove.movement == In
    requires outMove.product == inMove.product && outMove.quantity == inMove.quantity
    ensures StockOf(moves + [outMove, inMove], p) == StockOf(moves, p)
    ensures p == outMove.product && w == outMove.warehouse && w != inMove.warehouse ==>
              BalanceOf(moves + [outMove, inMove], p, w) == BalanceOf(moves, p, w) - outMove.quantity
    ensures p == outMove.product && w == inMove.warehouse && w != outMove.warehouse ==>
              BalanceOf(moves + [outMove, inMove], p, w) == BalanceOf(moves, p, w) + outMove.quantity
    ensures p != outMove.product || (w != outMove.warehouse && w != inMove.warehouse) ==>
              BalanceOf(moves + [outMove, inMove], p, w) == BalanceOf(moves, p, w)
  {
    assert moves + [outMove, inMove] == (moves + [outMove]) + [inMove];
    StockOfAppend(moves, outMove, p);
    StockOfAppend(moves + [outMove], inMove, p);
    BalanceOfAppend(moves, outMove, p, w);
    BalanceOfAppend(moves + [outMove], inMove, p, w);
  }

  /** A transfer whose source and destination are the same warehouse: the
      destination balance is read after the 'out' row exists, so the 'in'
      row's snapshot equals the balance before the transfer and the pair's
      balance ends where it started. */
  lemma {:induction false} TransferWithinWarehouse(moves: seq<Move>, p: Id, w: Id, op: Id, q: int)
    ensures var outMove := Move(p, w, op, q, Out, BalanceOf(moves, p, w) - q);
            var inMove := Move(p, w, op, q, In, BalanceOf(moves + [outMove], p, w) + q);
            && inMove.balanceAfter == BalanceOf(moves, p, w)
            && BalanceOf(moves + [outMove, inMove], p, w) == BalanceOf(moves, p, w)
  {
    var outMove := Move(p, w, op, q, Out, BalanceOf(moves, p, w) - q);
    var inMove := Move(p, w, op, q, In, BalanceOf(moves + [outMove], p, w) + q);
    BalanceOfAppend(moves, outMove, p, w);
    assert moves + [outMove, inMove] == (moves + [outMove]) + [inMove];
    BalanceOfAppend(moves + [outMove], inMove, p, w);
  }

  // ---------------------------------------------------------------------
  // Operations and what confirming one writes
  // ---------------------------------------------------------------------

  datatype Status = Pending | Completed

  /** A row of `operations`. `type` is free text; `product_id` and both
      warehouse ids are nullable; `quantity` is a signed INTEGER. The money
      columns, free-text notes and timestamps are not modelled. */
  datatype Operation = Operation(
    kind: string,
    reference: string,
    product: Option<Id>,
    fromWarehouse: Option<Id>,
    toWarehouse: Option<Id>,
    quantity: int,
    status: Status)

  predicate Recognised(kind: string) {
    kind == "receipt" || kind == "delivery" || kind == "transfer" || kind == "adjustment"
  }

  /** `toWarehouseId || fromWarehouseId`: ids are positive, so JavaScript
      truthiness coincides with presence. */
  function AdjustmentWarehouse(op: Operation): (w: Option<Id>)
    ensures w.Some? <==> op.toWarehouse.Some? || op.fromWarehouse.Some?
    ensures op.toWarehouse.Some? ==> w == op.toWarehouse
    ensures op.toWarehouse.None? ==> w == op.fromWarehouse
  {
    if op.toWarehouse.Some? then op.toWarehouse else op.fromWarehouse
  }

  /** The warehouses a confirmation writes rows at, in the order it writes them. */
  function TargetWarehouses(op: Operation): seq<Option<Id>> {
    if op.kind == "receipt" then [op.toWarehouse]
    else if op.kind == "delivery" then [op.fromWarehouse]
    else if op.kind == "transfer" then [op.fromWarehouse, op.toWarehouse]
    else if op.kind == "adjustment" then [AdjustmentWarehouse(op)]
    else []
  }

  /** Every id the written rows need is present: a recognised kind needs
      its product and each of its target warehouses. */
  predicate HasIds(op: Operation) {
    && (Recognised(op.kind) ==> op.product.Some?)
    && (op.kind == "receipt" ==> op.toWarehouse.Some?)
    && (op.kind == "delivery" ==> op.fromWarehouse.Some?)
    && (op.kind == "transfer" ==> op.fromWarehouse.Some? && op.toWarehouse.Some?)
    && (op.kind == "adjustment" ==> AdjustmentWarehouse(op).Some?)
  }

  function Abs(q: int): nat {
    if q < 0 then -q else q
  }

  /** The 'out' row a transfer writes first, at its source. */
  function TransferOut(moves: seq<Move>, id: Id, op: Operation): Move
    requires op.product.Some? && op.fromWarehouse.Some?
  {
    var p, w, q := op.product.value, op.fromWarehouse.value, op.quantity;
    Move(p, w, id, q, Out, BalanceOf(moves, p, w) - q)
  }

  /** The rows a successful confirmation appends to `moves`, each with the
      balance of its pair read from the log as it stands when that row is
      inserted. */
  function Written(moves: seq<Move>, id: Id, op: Operation): (ws: seq<Move>)
    requires HasIds(op)
    ensures |ws| == |TargetWarehouses(op)|
    ensures forall i | 0 <= i < |ws| ::
      ws[i].operation == id && ws[i].product == op.product.value && Some(ws[i].warehouse) == TargetWarehouses(op)[i]
  {
    if !Recognised(op.kind) then []
    else
      var p, q := op.product.value, op.quantity;
      if op.kind == "receipt" then
        var w := op.toWarehouse.value;
        [Move(p, w, id, q, In, BalanceOf(moves, p, w) + q)]
      else if op.kind == "delivery" then
        var w := op.fromWarehouse.value;
        [Move(p, w, id, q, Out, BalanceOf(moves, p, w) - q)]
      else if op.kind == "transfer" then
        var out := TransferOut(moves, id, op);
        var w := op.toWarehouse.value;
        [out, Move(p, w, id, q, In, BalanceOf(moves + [out], p, w) + q)]
      else
        var w := AdjustmentWarehouse(op).value;
        [Move(p, w, id, Abs(q), if q > 0 then In else Out, BalanceOf(moves, p, w) + q)]
  }

  /** The change a confirmation applies to the product's `total_stock`. */
  function StockChange(op: Operation): int {
    if op.kind == "receipt" || op.kind == "adjustment" then op.quantity
    else if op.kind == "delivery" then -op.quantity
    else 0
  }

  /** `UPDATE products SET total_stock = total_stock + change WHERE id = p`:
      a product id with no row updates nothing. */
  function ShiftStock(totalStock: map<Id, int>, p: Option<Id>, change: int): (ts: map<Id, int>)
    ensures ts.Keys == totalStock.Keys
    ensures p.Some? && p.value in totalStock ==> ts[p.value] == totalStock[p.value] + change
    ensures forall k | k in ts && Some(k) != p :: ts[k] == totalStock[k]
    ensures !(p.Some? && p.value in totalStock) ==> ts == totalStock
  {
    if p.Some? && p.value in totalStock then totalStock[p.value := totalStock[p.value] + change]
    else totalStock
  }

  function SumDeltas(ws: seq<Move>): int {
    if ws == [] then 0 else Delta(ws[0]) + SumDeltas(ws[1..])
  }

  /** The rows `WHERE product_id = $1 AND warehouse_id = $2` selects, in log
      order. The bound ids may be null, and a null compares equal to nothing. */
  function Matching(moves: seq<Move>, p: Option<Id>, w: Option<Id>): (ms: seq<Move>)
    ensures |ms| <= |moves|
    ensures forall k | 0 <= k < |ms| :: Some(ms[k].product) == p && Some(ms[k].warehouse) == w
  {
    if moves == [] then []
    else
      var m := moves[0];
      (if Some(m.product) == p && Some(m.warehouse) == w then [m] else []) + Matching(moves[1..], p, w)
  }

  /** The SUM of the balance SELECT over the rows it selects is the pair's
      balance when both ids are given, and 0 (the COALESCE default) when one
      is null. */
  lemma {:induction false} MatchingBalance(moves: seq<Move>, p: Option<Id>, w: Option<Id>)
    ensures SumDeltas(Matching(moves, p, w)) ==
      if p.Some? && w.Some? then BalanceOf(moves, p.value, w.value) else 0
  {
    if moves != [] {
      var m := moves[0];
      var head := if Some(m.product) == p && Some(m.warehouse) == w then [m] else [];
      var rest := Matching(moves[1..], p, w);
      MatchingBalance(moves[1..], p, w);
      if head == [] {
        assert head + rest == rest;
      } else {
        assert (head + rest)[0] == m && (head + rest)[1..] == rest;
      }
    }
  }

  /** The rows a confirmation writes carry, together, exactly the change it
      applies to the product's cached total; a transfer's two rows cancel. */
  lemma WrittenNetChange(moves: seq<Move>, id: Id, op: Operation)
    requires HasIds(op)
    ensures SumDeltas(Written(moves, id, op)) == StockChange(op)
  {
    var ws := Written(moves, id, op);
    if op.kind == "transfer" {
      var rest := ws[1..];
      assert rest == [ws[1]] && rest[1..] == [];
      assert SumDeltas(rest) == Delta(ws[1]) + SumDeltas(rest[1..]) == op.quantity;
    } else if Recognised(op.kind) {
      assert ws[1..] == [];
    }
  }

  /** Appending the written rows keeps every `balance_after` continuous,
      including a transfer whose source and destination coincide. */
  lemma {:induction false} WrittenKeepsContinuity(moves: seq<Move>, id: Id, op: Operation)
    requires HasIds(op) && Continuous(moves)
    ensures Continuous(moves + Written(moves, id, op))
  {
    var ws := Written(moves, id, op);
    if ws == [] {
      assert moves + ws == moves;
    } else if op.kind == "transfer" {
      var out := ws[0];
      ContinuousAppend(moves, out);
      SnapshotAfterAppend(moves + [out], ws[1]);
      ContinuousAppend(moves + [out], ws[1]);
      assert moves + ws == (moves + [out]) + [ws[1]];
    } else {
      ContinuousAppend(moves, ws[0]);
    }
  }

  /** Appending the written rows changes the log's stock of the operation's
      product by `StockChange(op)` and no other product's. */
  lemma {:induction false} WrittenStock(moves: seq<Move>, id: Id, op: Operation, p: Id)
    requires HasIds(op)
    ensures StockOf(moves + Written(moves, id, op), p)
         == StockOf(moves, p) + (if Recognised(op.kind) && p == op.product.value then StockChange(op) else 0)
  {
    var ws := Written(moves, id, op);
    if ws == [] {
      assert moves + ws == moves;
    } else if op.kind == "transfer" {
      TransferBetweenWarehouses(moves, ws[0], ws[1], p, ws[0].warehouse);
    } else {
      StockOfAppend(moves, ws[0], p);
    }
  }

  /** Receipts, deliveries and adjustments update `total_stock`; a transfer
      and an unrecognised kind issue no UPDATE. */
  predicate UpdatesTotal(kind: string) {
    kind == "receipt" || kind == "delivery" || kind == "adjustment"
  }

  /** The product totals after a successful confirmation. */
  function StockAfter(totalStock: map<Id, int>, op: Operation): (ts: map<Id, int>)
    ensures ts.Keys == totalStock.Keys
  {
    if UpdatesTotal(op.kind) then ShiftStock(totalStock, op.product, StockChange(op)) else totalStock
  }

  /** A confirmation that writes its rows and moves the cached total leaves
      every product's drift between cache and log as it was: in particular a
      reconciled catalogue stays reconciled. */
  lemma ConfirmKeepsDrift(totalStock: map<Id, int>, moves: seq<Move>, id: Id, op: Operation)
    requires HasIds(op)
    requires Recognised(op.kind) ==> op.product.value in totalStock
    ensures var ts := StockAfter(totalStock, op);
            forall p | p in ts :: Drift(ts, moves + Written(moves, id, op), p) == Drift(totalStock, moves, p)
    ensures Reconciled(totalStock, moves) ==> Reconciled(StockAfter(totalStock, op), moves + Written(moves, id, op))
  {
    forall p | p in totalStock {
      WrittenStock(moves, id, op, p);
    }
  }

  /** Receipt: one 'in' row at the destination; that pair's balance rises by
      the quantity and the row's snapshot is the new balance. */
  lemma {:induction false} ReceiptEffect(moves: seq<Move>, id: Id, op: Operation)
    requires op.kind == "receipt" && HasIds(op)
    ensures var ws := Written(moves, id, op);
            var p, w := op.product.value, op.toWarehouse.value;
            && |ws| == 1 && ws[0].movement == In && ws[0].quantity == op.quantity
            && BalanceOf(moves + ws, p, w) == BalanceOf(moves, p, w) + op.quantity
            && ws[0].balanceAfter == BalanceOf(moves + ws, p, w)
  {
    SnapshotAfterAppend(moves, Written(moves, id, op)[0]);
  }

  /** Delivery: one 'out' row at the source; that pair's balance falls by
      the quantity with no lower bound. */
  lemma {:induction false} DeliveryEffect(moves: seq<Move>, id: Id, op: Operation)
    requires op.kind == "delivery" && HasIds(op)
    ensures var ws := Written(moves, id, op);
            var p, w := op.product.value, op.fromWarehouse.value;
            && |ws| == 1 && ws[0].movement == Out && ws[0].quantity == op.quantity
            && BalanceOf(moves + ws, p, w) == BalanceOf(moves, p, w) - op.quantity
            && ws[0].balanceAfter == BalanceOf(moves + ws, p, w)
  {
    SnapshotAfterAppend(moves, Written(moves, id, op)[0]);
  }

  /** Adjustment: one row whose direction is 'in' exactly when the signed
      quantity is positive, whose quantity is its magnitude, and which moves
      the pair's balance by the signed quantity. */
  lemma {:induction false} AdjustmentEffect(moves: seq<Move>, id: Id, op: Operation)
    requires op.kind == "adjustment" && HasIds(op)
    ensures var ws := Written(moves, id, op);
            var p, w := op.product.value, AdjustmentWarehouse(op).value;
            && |ws| == 1
            && (ws[0].movement == In <==> op.quantity > 0)
            && ws[0].quantity == Abs(op.quantity)
            && BalanceOf(moves + ws, p, w) == BalanceOf(moves, p, w) + op.quantity
            && ws[0].balanceAfter == BalanceOf(moves + ws, p, w)
  {
    SnapshotAfterAppend(moves, Written(moves, id, op)[0]);
  }

  /** Transfer: an 'out' row at the source and then an 'in' row at the
      destination, both of the same quantity; between two warehouses the
      quantity moves from one balance to the other, within one warehouse the
      balance ends where it started; the product's stock is unchanged. */
  lemma {:induction false} TransferEffect(moves: seq<Move>, id: Id, op: Operation)
    requires op.kind == "transfer" && HasIds(op)
    ensures var ws := Written(moves, id, op);
            var p, src, dst, q := op.product.value, op.fromWarehouse.value, op.toWarehouse.value, op.quantity;
            && |ws| == 2 && ws[0].movement == Out && ws[1].movement == In
            && ws[0].quantity == q && ws[1].quantity == q
            && StockOf(moves + ws, p) == StockOf(moves, p)
            && (src != dst ==>
                  && BalanceOf(moves + ws, p, src) == BalanceOf(moves, p, src) - q
                  && BalanceOf(moves + ws, p, dst) == BalanceOf(moves, p, dst) + q)
            && (src == dst ==>
                  && BalanceOf(moves + ws, p, src) == BalanceOf(moves, p, src)
                  && ws[1].balanceAfter == BalanceOf(moves, p, src))
  {
    var ws := Written(moves, id, op);
    var p, src, dst := op.product.value, op.fromWarehouse.value, op.toWarehouse.value;
    TransferBetweenWarehouses(moves, ws[0], ws[1], p, src);
    TransferBetweenWarehouses(moves, ws[0], ws[1], p, dst);
    if src == dst {
      TransferWithinWarehouse(moves, p, src, id, op.quantity);
    }
  }
}
