/** The operations routes: creating a pending operation, confirming it into
    stock moves, and building the filtered list query. The three tables the
    confirm handler touches (`stock_moves`, `products.total_stock`,
    `operations`) are fields of one database object that the handlers update
    statement by statement. */
module Operations {
  import opened Basics
  import opened Ledger

  /** The four responses of the confirm handler: 200, 404, 400 and 500. */
  datatype ConfirmOutcome = Confirmed | NotFound | AlreadyConfirmed | Failed

  /** `${type.toUpperCase()}-${Date.now()}` with the clock passed in. */
  function Reference(kind: string, now: nat): string {
    UpperAscii(kind) + "-" + DecimalString(now)
  }

  class StockDb {
    /** `stock_moves`, in insertion order */
    var moves: seq<Move>
    /** `products.total_stock`; the keys are the existing product ids */
    var totalStock: map<Id, int>
    /** ids of the existing `warehouses` rows */
    var warehouses: set<Id>
    /** `operations`, by id */
    var ops: map<Id, Operation>
    /** the next AUTOINCREMENT id of `operations` */
    var nextOpId: Id

    ghost predicate Valid()
      reads this
    {
      forall id | id in ops :: id < nextOpId
    }

    constructor (totalStock: map<Id, int>, warehouses: set<Id>)
      ensures Valid()
      ensures this.moves == [] && this.ops == map[] && this.nextOpId == 1
      ensures this.totalStock == totalStock && this.warehouses == warehouses
    {
      this.moves := [];
      this.totalStock := totalStock;
      this.warehouses := warehouses;
      this.ops := map[];
      this.nextOpId := 1;
    }

    /** The database accepts a `stock_moves` row for this pair: both ids are
        present (the columns are NOT NULL) and name existing rows (foreign
        keys are enforced). */
    predicate CanInsertMove(p: Option<Id>, w: Option<Id>)
      reads this
    {
      p.Some? && p.value in totalStock && w.Some? && w.value in warehouses
    }

    /** Every row a confirmation of `op` inserts is accepted. */
    predicate Accepts(op: Operation)
      reads this
    {
      if op.kind == "receipt" then CanInsertMove(op.product, op.toWarehouse)
      else if op.kind == "delivery" then CanInsertMove(op.product, op.fromWarehouse)
      else if op.kind == "transfer" then
        CanInsertMove(op.product, op.fromWarehouse) && CanInsertMove(op.product, op.toWarehouse)
      else if op.kind == "adjustment" then CanInsertMove(op.product, AdjustmentWarehouse(op))
      else true
    }

    /** The database accepts an `operations` row: the reference is unused and
        every non-null product or warehouse id names an existing row. */
    predicate CanInsertOperation(reference: string, product: Option<Id>, fromWarehouse: Option<Id>, toWarehouse: Option<Id>)
      reads this
    {
      && (forall id | id in ops :: ops[id].reference != reference)
      && (product.Some? ==> product.value in totalStock)
      && (fromWarehouse.Some? ==> fromWarehouse.value in warehouses)
      && (toWarehouse.Some? ==> toWarehouse.value in warehouses)
    }

    /** The balance SELECT: the signed quantities of the rows it selects,
        summed; a null id selects no row, so the sum is 0. */
    function PairBalance(p: Option<Id>, w: Option<Id>): (b: int)
      reads this
      ensures b == SumDeltas(Matching(moves, p, w))
      ensures p.Some? && w.Some? ==> b == BalanceOf(moves, p.value, w.value)
      ensures p.None? || w.None? ==> b == 0
    {
      MatchingBalance(moves, p, w);
      if p.Some? && w.Some? then BalanceOf(moves, p.value, w.value) else 0
    }

    /** POST /api/operations: insert the operation as 'pending'. A request
        without a quantity breaks `quantity NOT NULL` and inserts nothing. */
    method Create(kind: string, product: Option<Id>, fromWarehouse: Option<Id>, toWarehouse: Option<Id>,
                  quantity: Option<int>, now: nat) returns (r: Option<Id>)
      requires Valid()
      modifies this`ops, this`nextOpId
      ensures Valid()
      ensures r.Some? <==>
        quantity.Some? && old(CanInsertOperation(Reference(kind, now), product, fromWarehouse, toWarehouse))
      ensures r.Some? ==>
        && r.value == old(nextOpId) && r.value !in old(ops)
        && ops == old(ops)[r.value := Operation(kind, Reference(kind, now), product, fromWarehouse, toWarehouse, quantity.value, Pending)]
        && nextOpId == old(nextOpId) + 1
      ensures r.None? ==> ops == old(ops) && nextOpId == old(nextOpId)
    {
      var reference := Reference(kind, now);
      if quantity.None? || !CanInsertOperation(reference, product, fromWarehouse, toWarehouse) {
        return None;
      }
      var id := nextOpId;
      ops := ops[id := Operation(kind, reference, product, fromWarehouse, toWarehouse, quantity.value, Pending)];
      nextOpId := nextOpId + 1;
      r := Some(id);
    }

    /** `INSERT INTO stock_moves ...`, which the database may reject. */
    method InsertMove(p: Option<Id>, w: Option<Id>, id: Id, quantity: int, movement: Movement, balanceAfter: int)
      returns (ok: bool)
      modifies this`moves
      ensures ok == CanInsertMove(p, w)
      ensures ok ==> moves == old(moves) + [Move(p.value, w.value, id, quantity, movement, balanceAfter)]
      ensures !ok ==> moves == old(moves)
    {
      ok := CanInsertMove(p, w);
      if ok {
        moves := moves + [Move(p.value, w.value, id, quantity, movement, balanceAfter)];
      }
    }

    /** `UPDATE products SET total_stock = total_stock + change WHERE id = p` */
    method AddToTotal(p: Option<Id>, change: int)
      modifies this`totalStock
      ensures totalStock == ShiftStock(old(totalStock), p, change)
    {
      if p.Some? && p.value in totalStock {
        totalStock := totalStock[p.value := totalStock[p.value] + change];
      }
    }

    /** The stock-move statements of the confirm handler for one kind: the
        rows of `Written` and the `total_stock` update of `StockAfter` when
        every insert is accepted; otherwise the statements before the rejected
        insert stay (only a transfer has a statement before its last
        insert). */
    method WriteMoves(id: Id, op: Operation) returns (ok: bool)
      modifies this`moves, this`totalStock
      ensures ok == old(Accepts(op))
      ensures ok ==>
        && HasIds(op)
        && moves == old(moves) + Written(old(moves), id, op)
        && totalStock == StockAfter(old(totalStock), op)
      ensures !ok ==>
        && totalStock == old(totalStock)
        && moves == if op.kind == "transfer" && old(CanInsertMove(op.product, op.fromWarehouse))
                    then old(moves) + [TransferOut(old(moves), id, op)]
                    else old(moves)
    {
      var p, q := op.product, op.quantity;
      if op.kind == "receipt" {
        var balance := PairBalance(p, op.toWarehouse);
        ok := InsertMove(p, op.toWarehouse, id, q, In, balance + q);
        if ok { AddToTotal(p, q); }
      } else if op.kind == "delivery" {
        var balance := PairBalance(p, op.fromWarehouse);
        ok := InsertMove(p, op.fromWarehouse, id, q, Out, balance - q);
        if ok { AddToTotal(p, -q); }
      } else if op.kind == "transfer" {
        ok := WriteTransfer(id, op);
      } else if op.kind == "adjustment" {
        var movement := if q > 0 then In else Out;
        var warehouse := AdjustmentWarehouse(op);
        var balance := PairBalance(p, warehouse);
        ok := InsertMove(p, warehouse, id, Abs(q), movement, balance + q);
        if ok { AddToTotal(p, q); }
      } else {
        ok := true;
      }
    }

    /** The transfer branch: an 'out' row at the source, then an 'in' row at
        the destination whose balance is read after the 'out' row. */
    method WriteTransfer(id: Id, op: Operation) returns (ok: bool)
      requires op.kind == "transfer"
      modifies this`moves
      ensures ok == old(Accepts(op))
      ensures ok ==> HasIds(op) && moves == old(moves) + Written(old(moves), id, op)
      ensures !ok ==>
        moves == if old(CanInsertMove(op.product, op.fromWarehouse))
                 then old(moves) + [TransferOut(old(moves), id, op)]
                 else old(moves)
    {
      var p, q := op.product, op.quantity;
      var fromBalance := PairBalance(p, op.fromWarehouse);
      ok := InsertMove(p, op.fromWarehouse, id, q, Out, fromBalance - q);
      if !ok { return; }
      var toBalance := PairBalance(p, op.toWarehouse);
      ok := InsertMove(p, op.toWarehouse, id, q, In, toBalance + q);
    }

    /** PUT /api/operations/:id/confirm. The statements run one after the
        other without a transaction: a transfer whose 'in' row is rejected
        keeps its 'out' row and stays pending. */
    method Confirm(id: int) returns (r: ConfirmOutcome)
      requires Valid()
      modifies this`moves, this`totalStock, this`ops
      ensures Valid()
      ensures r == NotFound <==> id !in old(ops)
      ensures r == AlreadyConfirmed <==> id in old(ops) && old(ops)[id].status == Completed
      ensures r == Confirmed <==> id in old(ops) && old(ops)[id].status == Pending && old(Accepts(ops[id]))
      ensures r == NotFound || r == AlreadyConfirmed ==> moves == old(moves)
      ensures r != Confirmed ==> totalStock == old(totalStock) && ops == old(ops)
      ensures r == Confirmed ==>
        var op := old(ops)[id];
        && HasIds(op)
        && moves == old(moves) + Written(old(moves), id, op)
        && totalStock == StockAfter(old(totalStock), op)
        && ops == old(ops)[id := op.(status := Completed)]
      ensures r == Failed ==>
        var op := old(ops)[id];
        moves == if op.kind == "transfer" && old(CanInsertMove(op.product, op.fromWarehouse))
                 then old(moves) + [TransferOut(old(moves), id, op)]
                 else old(moves)
      // what the log keeps across the call
      ensures old(moves) <= moves
      ensures old(Continuous(moves)) ==> Continuous(moves)
      ensures r == Confirmed ==>
        forall p | p in totalStock :: p in old(totalStock) && Drift(totalStock, moves, p) == old(Drift(totalStock, moves, p))
      ensures r == Failed ==>
        forall p | p in totalStock :: p in old(totalStock) &&
          Drift(totalStock, moves, p) ==
            old(Drift(totalStock, moves, p)) + (if moves != old(moves) && Some(p) == old(ops)[id].product then old(ops)[id].quantity else 0)
    {
      if id !in ops {
        return NotFound;
      }
      var op := ops[id];
      if op.status == Completed {
        return AlreadyConfirmed;
      }
      ghost var moves0, totalStock0 := moves, totalStock;
      var ok := WriteMoves(id, op);
      if !ok {
        if moves != moves0 {
          var out := TransferOut(moves0, id, op);
          if Continuous(moves0) {
            ContinuousAppend(moves0, out);
          }
          UnrecordedMoveShiftsDrift(totalStock, moves0, out);
        }
        return Failed;
      }
      ops := ops[id := op.(status := Completed)];
      r := Confirmed;
      if Continuous(moves0) {
        WrittenKeepsContinuity(moves0, id, op);
      }
      ConfirmKeepsDrift(totalStock0, moves0, id, op);
    }
  }

  /** Confirming the same operation twice in a row applies it at most once:
      after a successful first call the second reports it as already
      confirmed and the state is that of a single confirmation; after any
      other first outcome the second call has the same outcome. */
  method ConfirmTwice(db: StockDb, id: int) returns (first: ConfirmOutcome, second: ConfirmOutcome)
    requires db.Valid()
    modifies db`moves, db`totalStock, db`ops
    ensures db.warehouses == old(db.warehouses) && db.nextOpId == old(db.nextOpId)
    ensures first == Confirmed ==>
      && id in old(db.ops)
      && second == AlreadyConfirmed
      && var op := old(db.ops)[id];
         && HasIds(op)
         && db.moves == old(db.moves) + Written(old(db.moves), id, op)
         && db.totalStock == StockAfter(old(db.totalStock), op)
         && db.ops == old(db.ops)[id := op.(status := Completed)]
    ensures first != Confirmed ==> second == first
  {
    first := db.Confirm(id);
    second := db.Confirm(id);
  }
}
