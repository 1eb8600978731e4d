/**
 * The stock ledger of the warehouses service: a per-(warehouse, product) quantity that
 * never goes negative, and an append-only log of movements with before/after snapshots.
 */
module Warehouses {
  import opened Util
  import opened Schema

  /** What a successful adjustment reports back to its caller. */
  datatype Adjustment = Adjustment(productId: Uuid, previousStock: nat, newStock: nat, quantity: int)

  datatype StockError = InsufficientStock(available: nat)

  /** The decision of one adjustment: accepted exactly when the quantity stays non-negative. */
  function Adjust(levels: map<StockKey, nat>, warehouseId: Uuid, productId: Uuid, quantity: int)
    : (r: Result<Adjustment, StockError>)
    ensures r.Ok? <==> QuantityOf(levels, warehouseId, productId) + quantity >= 0
    ensures r.Ok? ==> && r.value.productId == productId
                      && r.value.previousStock == QuantityOf(levels, warehouseId, productId)
                      && r.value.newStock - r.value.previousStock == quantity
                      && r.value.quantity == quantity
    ensures r.Err? ==> r.error.available == QuantityOf(levels, warehouseId, productId)
  {
    var previous := QuantityOf(levels, warehouseId, productId);
    var next := previous + quantity;
    if next < 0 then Err(InsufficientStock(previous))
    else Ok(Adjustment(productId, previous, next, quantity))
  }

  /** The stock table after an accepted adjustment is written (updated or inserted). */
  function Stored(levels: map<StockKey, nat>, warehouseId: Uuid, a: Adjustment): (r: map<StockKey, nat>)
    ensures QuantityOf(r, warehouseId, a.productId) == a.newStock
    ensures forall w: Uuid, p: Uuid :: (w, p) != (warehouseId, a.productId) ==> QuantityOf(r, w, p) == QuantityOf(levels, w, p)
  {
    levels[(warehouseId, a.productId) := a.newStock]
  }

  /** The movement row recorded for an accepted adjustment. */
  function Record(warehouseId: Uuid, kind: MovementType, userId: Uuid, reason: Option<string>,
                  referenceId: Option<Uuid>, a: Adjustment): Movement
  {
    Movement(warehouseId, a.productId, kind, a.quantity, a.previousStock, a.newStock, reason, referenceId, userId)
  }

  // ---------------------------------------------------------------------------
  // Any sequence of independent adjustments (each one a separate call)
  // ---------------------------------------------------------------------------

  datatype StockOp = StockOp(warehouseId: Uuid, productId: Uuid, quantity: int)

  /** The stock table after a sequence of calls; a rejected call changes nothing. */
  function Replay(levels: map<StockKey, nat>, ops: seq<StockOp>): map<StockKey, nat>
    decreases |ops|
  {
    if ops == [] then levels
    else
      var op := ops[0];
      match Adjust(levels, op.warehouseId, op.productId, op.quantity)
      case Ok(a) => Replay(Stored(levels, op.warehouseId, a), ops[1..])
      case Err(_) => Replay(levels, ops[1..])
  }

  /** The sum of the deltas for one pair among the calls that were accepted. */
  function AcceptedDelta(levels: map<StockKey, nat>, ops: seq<StockOp>, warehouseId: Uuid, productId: Uuid): int
    decreases |ops|
  {
    if ops == [] then 0
    else
      var op := ops[0];
      match Adjust(levels, op.warehouseId, op.productId, op.quantity)
      case Ok(a) =>
        (if op.warehouseId == warehouseId && op.productId == productId then op.quantity else 0)
        + AcceptedDelta(Stored(levels, op.warehouseId, a), ops[1..], warehouseId, productId)
      case Err(_) => AcceptedDelta(levels, ops[1..], warehouseId, productId)
  }

  /** Across any sequence of calls, a pair's quantity is its initial quantity plus its accepted deltas. */
  lemma {:induction false} ReplayAddsAcceptedDeltas(levels: map<StockKey, nat>, ops: seq<StockOp>, warehouseId: Uuid, productId: Uuid)
    ensures QuantityOf(Replay(levels, ops), warehouseId, productId)
         == QuantityOf(levels, warehouseId, productId) + AcceptedDelta(levels, ops, warehouseId, productId)
    decreases |ops|
  {
    if ops != [] {
      var op := ops[0];
      match Adjust(levels, op.warehouseId, op.productId, op.quantity)
      case Ok(a) => ReplayAddsAcceptedDeltas(Stored(levels, op.warehouseId, a), ops[1..], warehouseId, productId);
      case Err(_) => ReplayAddsAcceptedDeltas(levels, ops[1..], warehouseId, productId);
    }
  }

  // ---------------------------------------------------------------------------
  // A run of adjustments in one warehouse that stops at the first failure
  // (the `for (const item of ...) await adjustStock(...)` loops of the sales service)
  // ---------------------------------------------------------------------------

  datatype StockLine = StockLine(productId: Uuid, quantity: int)

  /** Final stock table, the movements written, and the error that stopped the run (if any). */
  datatype Batch = Batch(levels: map<StockKey, nat>, log: seq<Movement>, failure: Option<StockError>)

  function AdjustEach(levels: map<StockKey, nat>, warehouseId: Uuid, lines: seq<StockLine>, kind: MovementType,
                      userId: Uuid, reason: Option<string>, referenceId: Option<Uuid>): Batch
    decreases |lines|
  {
    if lines == [] then Batch(levels, [], None)
    else
      match Adjust(levels, warehouseId, lines[0].productId, lines[0].quantity)
      case Err(e) => Batch(levels, [], Some(e))
      case Ok(a) =>
        var rest := AdjustEach(Stored(levels, warehouseId, a), warehouseId, lines[1..], kind, userId, reason, referenceId);
        Batch(rest.levels, [Record(warehouseId, kind, userId, reason, referenceId, a)] + rest.log, rest.failure)
  }

  /** The same run from line `i` on, indexed instead of sliced: the form a loop over the lines follows. */
  function AdjustFrom(levels: map<StockKey, nat>, warehouseId: Uuid, lines: seq<StockLine>, i: nat, kind: MovementType,
                      userId: Uuid, reason: Option<string>, referenceId: Option<Uuid>): Batch
    requires i <= |lines|
    decreases |lines| - i
  {
    if i == |lines| then Batch(levels, [], None)
    else
      match Adjust(levels, warehouseId, lines[i].productId, lines[i].quantity)
      case Err(e) => Batch(levels, [], Some(e))
      case Ok(a) =>
        var rest := AdjustFrom(Stored(levels, warehouseId, a), warehouseId, lines, i + 1, kind, userId, reason, referenceId);
        Batch(rest.levels, [Record(warehouseId, kind, userId, reason, referenceId, a)] + rest.log, rest.failure)
  }

  /** The indexed run from line `i` is the run over the lines from `i` on. */
  lemma {:induction false} AdjustFromSuffix(levels: map<StockKey, nat>, warehouseId: Uuid, lines: seq<StockLine>, i: nat,
                                            kind: MovementType, userId: Uuid, reason: Option<string>, referenceId: Option<Uuid>)
    requires i <= |lines|
    ensures AdjustFrom(levels, warehouseId, lines, i, kind, userId, reason, referenceId)
            == AdjustEach(levels, warehouseId, lines[i..], kind, userId, reason, referenceId)
    decreases |lines| - i
  {
    if i < |lines| {
      assert lines[i..][0] == lines[i] && lines[i..][1..] == lines[i + 1..];
      var a := Adjust(levels, warehouseId, lines[i].productId, lines[i].quantity);
      if a.Ok? {
        AdjustFromSuffix(Stored(levels, warehouseId, a.value), warehouseId, lines, i + 1, kind, userId, reason, referenceId);
      }
    }
  }

  /**
   * A run `whole` is under way at line `i`: the movements `written` so far, followed by
   * the run from line `i` on over the current `levels`, make up the whole run.
   */
  ghost predicate RunResumes(whole: Batch, written: seq<Movement>, levels: map<StockKey, nat>, warehouseId: Uuid,
                             lines: seq<StockLine>, i: nat, kind: MovementType, userId: Uuid, reason: Option<string>,
                             referenceId: Option<Uuid>)
    requires i <= |lines|
  {
    var rest := AdjustFrom(levels, warehouseId, lines, i, kind, userId, reason, referenceId);
    whole == Batch(rest.levels, written + rest.log, rest.failure)
  }

  /** The sum of the quantities of the lines for one product. */
  function LineTotal(lines: seq<StockLine>, productId: Uuid): int
    decreases |lines|
  {
    if lines == [] then 0
    else (if lines[0].productId == productId then lines[0].quantity else 0) + LineTotal(lines[1..], productId)
  }

  /** Lines that only add stock can never fail. */
  lemma {:induction false} AdjustEachNonNegativeSucceeds(levels: map<StockKey, nat>, warehouseId: Uuid, lines: seq<StockLine>,
                                                        kind: MovementType, userId: Uuid, reason: Option<string>, referenceId: Option<Uuid>)
    requires forall i :: 0 <= i < |lines| ==> lines[i].quantity >= 0
    ensures AdjustEach(levels, warehouseId, lines, kind, userId, reason, referenceId).failure.None?
    decreases |lines|
  {
    if lines != [] {
      var a := Adjust(levels, warehouseId, lines[0].productId, lines[0].quantity);
      AdjustEachNonNegativeSucceeds(Stored(levels, warehouseId, a.value), warehouseId, lines[1..], kind, userId, reason, referenceId);
    }
  }

  /** A run writes at most one movement per line, and applies every line exactly when it does not fail. */
  lemma {:induction false} AdjustEachLength(levels: map<StockKey, nat>, warehouseId: Uuid, lines: seq<StockLine>,
                                            kind: MovementType, userId: Uuid, reason: Option<string>, referenceId: Option<Uuid>)
    ensures var b := AdjustEach(levels, warehouseId, lines, kind, userId, reason, referenceId);
      && |b.log| <= |lines|
      && (b.failure.None? <==> |b.log| == |lines|)
    decreases |lines|
  {
    if lines != [] {
      var a := Adjust(levels, warehouseId, lines[0].productId, lines[0].quantity);
      if a.Ok? {
        AdjustEachLength(Stored(levels, warehouseId, a.value), warehouseId, lines[1..], kind, userId, reason, referenceId);
      }
    }
  }

  /**
   * The log of a run holds one movement per applied line, in line order, each with the
   * line's product and signed quantity, the run's warehouse, kind, user, reason and
   * reference, and a consistent snapshot.
   */
  lemma {:induction false} AdjustEachLog(levels: map<StockKey, nat>, warehouseId: Uuid, lines: seq<StockLine>,
                                         kind: MovementType, userId: Uuid, reason: Option<string>, referenceId: Option<Uuid>)
    ensures var b := AdjustEach(levels, warehouseId, lines, kind, userId, reason, referenceId);
      forall i :: 0 <= i < |b.log| ==>
        && i < |lines|
        && b.log[i] == Movement(warehouseId, lines[i].productId, kind, lines[i].quantity,
                                b.log[i].previousStock, b.log[i].newStock, reason, referenceId, userId)
        && b.log[i].newStock == b.log[i].previousStock + lines[i].quantity
    decreases |lines|
  {
    AdjustEachLength(levels, warehouseId, lines, kind, userId, reason, referenceId);
    if lines != [] {
      var a := Adjust(levels, warehouseId, lines[0].productId, lines[0].quantity);
      if a.Ok? {
        var tail := lines[1..];
        AdjustEachLog(Stored(levels, warehouseId, a.value), warehouseId, tail, kind, userId, reason, referenceId);
        var rest := AdjustEach(Stored(levels, warehouseId, a.value), warehouseId, tail, kind, userId, reason, referenceId);
        var b := AdjustEach(levels, warehouseId, lines, kind, userId, reason, referenceId);
        assert b.log == [Record(warehouseId, kind, userId, reason, referenceId, a.value)] + rest.log;
        forall i | 1 <= i < |b.log|
          ensures b.log[i] == rest.log[i - 1] && lines[i] == tail[i - 1]
        {
        }
      }
    }
  }

  /** Whether or not a run fails, the stock it leaves is the old stock plus the net of the movements it wrote. */
  lemma {:induction false} AdjustEachAudited(levels: map<StockKey, nat>, warehouseId: Uuid, lines: seq<StockLine>,
                                             kind: MovementType, userId: Uuid, reason: Option<string>, referenceId: Option<Uuid>)
    ensures var b := AdjustEach(levels, warehouseId, lines, kind, userId, reason, referenceId);
      forall w, p :: QuantityOf(b.levels, w, p) == QuantityOf(levels, w, p) + NetMovement(b.log, w, p)
    decreases |lines|
  {
    if lines != [] {
      match Adjust(levels, warehouseId, lines[0].productId, lines[0].quantity)
      case Err(e) =>
      case Ok(a) =>
        var next := Stored(levels, warehouseId, a);
        var rest := AdjustEach(next, warehouseId, lines[1..], kind, userId, reason, referenceId);
        var m := Record(warehouseId, kind, userId, reason, referenceId, a);
        AdjustEachAudited(next, warehouseId, lines[1..], kind, userId, reason, referenceId);
        forall w, p ensures QuantityOf(rest.levels, w, p) == QuantityOf(levels, w, p) + NetMovement([m] + rest.log, w, p) {
          NetMovementCons(m, rest.log, w, p);
        }
    }
  }

  /** A run that completes moves each product of its warehouse by the sum of its lines and no other pair. */
  lemma {:induction false} AdjustEachNet(levels: map<StockKey, nat>, warehouseId: Uuid, lines: seq<StockLine>,
                                         kind: MovementType, userId: Uuid, reason: Option<string>, referenceId: Option<Uuid>)
    requires AdjustEach(levels, warehouseId, lines, kind, userId, reason, referenceId).failure.None?
    ensures var b := AdjustEach(levels, warehouseId, lines, kind, userId, reason, referenceId);
      && (forall p :: QuantityOf(b.levels, warehouseId, p) == QuantityOf(levels, warehouseId, p) + LineTotal(lines, p))
      && (forall w, p :: w != warehouseId ==> QuantityOf(b.levels, w, p) == QuantityOf(levels, w, p))
    decreases |lines|
  {
    if lines != [] {
      var a := Adjust(levels, warehouseId, lines[0].productId, lines[0].quantity).value;
      AdjustEachNet(Stored(levels, warehouseId, a), warehouseId, lines[1..], kind, userId, reason, referenceId);
    }
  }

  /** The service object; its stock and movement tables live in the shared database. */
  class WarehousesService {
    const db: Database

    constructor (db: Database)
      ensures this.db == db
    {
      this.db := db;
    }

    /**
     * Apply a signed change to one (warehouse, product) quantity: refused with the available
     * quantity when the result would be negative (and then nothing is written); otherwise the
     * row is written and exactly one movement is appended.
     */
    method AdjustStock(warehouseId: Uuid, productId: Uuid, quantity: int, kind: MovementType, userId: Uuid,
                       reason: Option<string>, referenceId: Option<Uuid>)
      returns (r: Result<Adjustment, StockError>)
      requires db.StockAudited()
      modifies db`stock, db`movements
      ensures db.StockAudited()
      ensures r == Adjust(old(db.stock), warehouseId, productId, quantity)
      ensures r.Ok? ==> && db.stock == Stored(old(db.stock), warehouseId, r.value)
                        && db.movements == old(db.movements) + [Record(warehouseId, kind, userId, reason, referenceId, r.value)]
      ensures r.Err? ==> db.stock == old(db.stock) && db.movements == old(db.movements)
    {
      var previousStock := QuantityOf(db.stock, warehouseId, productId);
      var newStock := previousStock + quantity;
      if newStock < 0 {
        return Err(InsufficientStock(previousStock));
      }
      // Update the existing row or insert a new one: either way the pair now maps to newStock.
      db.stock := db.stock[(warehouseId, productId) := newStock];
      var a := Adjustment(productId, previousStock, newStock, quantity);
      var m := Record(warehouseId, kind, userId, reason, referenceId, a);
      forall w, p ensures NetMovement(db.movements + [m], w, p) == NetMovement(db.movements, w, p) + DeltaAt(m, w, p) {
        NetMovementSnoc(db.movements, m, w, p);
      }
      db.movements := db.movements + [m];
      r := Ok(a);
    }

    /** An inbound entry: the absolute value of the quantity, as an ENTRADA movement; it never fails. */
    method AddStockEntry(warehouseId: Uuid, productId: Uuid, quantity: int, reason: Option<string>, userId: Uuid)
      returns (r: Result<Adjustment, StockError>)
      requires db.StockAudited()
      modifies db`stock, db`movements
      ensures db.StockAudited()
      ensures r.Ok? && r.value.quantity == Abs(quantity) && r.value.newStock == r.value.previousStock + Abs(quantity)
      ensures r.value.previousStock == old(QuantityOf(db.stock, warehouseId, productId))
      ensures db.stock == Stored(old(db.stock), warehouseId, r.value)
      ensures db.movements == old(db.movements) + [Record(warehouseId, Entrada, userId, reason, None, r.value)]
    {
      r := AdjustStock(warehouseId, productId, Abs(quantity), Entrada, userId, reason, None);
    }

    /** An outbound exit: minus the absolute value of the quantity, as a SALIDA movement. */
    method RemoveStock(warehouseId: Uuid, productId: Uuid, quantity: int, reason: Option<string>, userId: Uuid)
      returns (r: Result<Adjustment, StockError>)
      requires db.StockAudited()
      modifies db`stock, db`movements
      ensures db.StockAudited()
      ensures r == Adjust(old(db.stock), warehouseId, productId, -(Abs(quantity) as int))
      ensures r.Ok? ==> && r.value.quantity <= 0
                        && db.stock == Stored(old(db.stock), warehouseId, r.value)
                        && db.movements == old(db.movements) + [Record(warehouseId, Salida, userId, reason, None, r.value)]
      ensures r.Err? ==> db.stock == old(db.stock) && db.movements == old(db.movements)
    {
      r := AdjustStock(warehouseId, productId, -(Abs(quantity) as int), Salida, userId, reason, None);
    }
  }
}
