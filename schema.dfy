/**
 * The tables of the back office, as records and one mutable `Database` object.
 * Every table except the stock table is a sequence whose row id is the row's position
 * (the model of a freshly generated primary key); the stock table is a map keyed by
 * (warehouse id, product id). Money is in integer cents (the columns are decimal(10,2)).
 */
module Schema {
  import opened Util

  type Uuid = nat

  datatype SaleType = Contado | Credito
  datatype SaleStatus = Completada | Cancelada | Pendiente
  datatype MovementType = Entrada | Salida | Ajuste | Venta | Transferencia | Produccion
  datatype AccountStatus = Pendiente | Parcial | Pagada | Vencida

  /** (warehouse id, product id): the key of a warehouse_stock row. */
  type StockKey = (Uuid, Uuid)

  /** One row of stock_movements: the audit record of one quantity change. */
  datatype Movement = Movement(
    warehouseId: Uuid, productId: Uuid, kind: MovementType,
    quantity: int, previousStock: nat, newStock: nat,
    reason: Option<string>, referenceId: Option<Uuid>, userId: Uuid)

  datatype Customer = Customer(creditLimit: int, currentDebt: int)

  datatype Sale = Sale(
    saleNumber: string, customerId: Option<Uuid>, userId: Uuid, warehouseId: Uuid,
    kind: SaleType, status: SaleStatus, subtotal: int, discount: int, total: int,
    notes: Option<string>, createdDay: int)

  datatype SaleItem = SaleItem(saleId: Uuid, productId: Uuid, quantity: int, unitPrice: int, subtotal: int)

  datatype Receivable = Receivable(
    saleId: Uuid, customerId: Uuid, totalAmount: int, paidAmount: int, balance: int,
    status: AccountStatus, dueDay: int)

  datatype Payment = Payment(
    accountId: Uuid, amount: int, paymentMethod: string, reference: Option<string>,
    notes: Option<string>, receivedBy: Uuid, createdDay: int)

  datatype CashClosing = CashClosing(
    warehouseId: Uuid, userId: Uuid, day: int,
    totalCash: int, totalCredit: int, totalSales: int, totalCollections: int,
    notes: Option<string>)

  /** The stored quantity of a product in a warehouse; a pair without a row counts as 0. */
  function QuantityOf(levels: map<StockKey, nat>, warehouseId: Uuid, productId: Uuid): nat {
    if (warehouseId, productId) in levels then levels[(warehouseId, productId)] else 0
  }

  /** The signed change a movement makes to the given pair (0 for any other pair). */
  function DeltaAt(m: Movement, warehouseId: Uuid, productId: Uuid): int {
    if m.warehouseId == warehouseId && m.productId == productId then m.quantity else 0
  }

  /** The sum of the signed quantities that a movement log records for one pair. */
  function NetMovement(log: seq<Movement>, warehouseId: Uuid, productId: Uuid): int {
    if log == [] then 0
    else NetMovement(log[..|log| - 1], warehouseId, productId) + DeltaAt(log[|log| - 1], warehouseId, productId)
  }

  lemma NetMovementSnoc(log: seq<Movement>, m: Movement, warehouseId: Uuid, productId: Uuid)
    ensures NetMovement(log + [m], warehouseId, productId)
         == NetMovement(log, warehouseId, productId) + DeltaAt(m, warehouseId, productId)
  {
  }

  lemma {:induction false} NetMovementCons(m: Movement, log: seq<Movement>, warehouseId: Uuid, productId: Uuid)
    ensures NetMovement([m] + log, warehouseId, productId)
         == DeltaAt(m, warehouseId, productId) + NetMovement(log, warehouseId, productId)
    decreases |log|
  {
    if log == [] {
      assert [m] + log == [m];
      assert ([m])[..0] == [];
    } else {
      var front := log[..|log| - 1];
      assert ([m] + log)[..|log|] == [m] + front;
      NetMovementCons(m, front, warehouseId, productId);
    }
  }

  /** Add to a customer's debt (the unbounded `currentDebt + total` update). */
  function RaiseDebt(customers: seq<Customer>, customerId: Uuid, amount: int): (r: seq<Customer>)
    ensures |r| == |customers|
    ensures forall j :: 0 <= j < |r| && j != customerId ==> r[j] == customers[j]
    ensures customerId < |r| ==>
              && r[customerId].currentDebt == customers[customerId].currentDebt + amount
              && r[customerId].creditLimit == customers[customerId].creditLimit
  {
    if customerId < |customers|
    then customers[customerId := customers[customerId].(currentDebt := customers[customerId].currentDebt + amount)]
    else customers
  }

  /** Subtract from a customer's debt, never going below 0 (the `GREATEST(debt - x, 0)` update). */
  function LowerDebt(customers: seq<Customer>, customerId: Uuid, amount: int): (r: seq<Customer>)
    ensures |r| == |customers|
    ensures forall j :: 0 <= j < |r| && j != customerId ==> r[j] == customers[j]
    ensures customerId < |r| ==>
              && r[customerId].currentDebt == Max(customers[customerId].currentDebt - amount, 0)
              && r[customerId].creditLimit == customers[customerId].creditLimit
    ensures customerId < |r| ==> r[customerId].currentDebt >= 0
  {
    if customerId < |customers|
    then customers[customerId := customers[customerId].(currentDebt := Max(customers[customerId].currentDebt - amount, 0))]
    else customers
  }

  /** The persistent state shared by all services. */
  class Database {
    var stock: map<StockKey, nat>
    var movements: seq<Movement>
    /** The stock table as it was before any movement in `movements` was recorded. */
    ghost var openingStock: map<StockKey, nat>
    var customers: seq<Customer>
    var sales: seq<Sale>
    var saleItems: seq<SaleItem>
    var receivables: seq<Receivable>
    var payments: seq<Payment>
    var closings: seq<CashClosing>

    /**
     * The stock table is explained by its audit trail: every movement's snapshot is
     * consistent, and every pair's quantity is its opening quantity plus the net of
     * the movements recorded for it.
     */
    ghost predicate StockAudited()
      reads this`stock, this`movements, this`openingStock
    {
      && (forall i :: 0 <= i < |movements| ==> movements[i].newStock == movements[i].previousStock + movements[i].quantity)
      && (forall w, p :: QuantityOf(stock, w, p) == QuantityOf(openingStock, w, p) + NetMovement(movements, w, p))
    }

    /** Every item row references a stored sale (`sale_id` references `sales.id`); a sale's id is its position. */
    predicate ItemsReferenceSales()
      reads this`sales, this`saleItems
    {
      forall i :: 0 <= i < |saleItems| ==> saleItems[i].saleId < |sales|
    }

    constructor (initialStock: map<StockKey, nat>, initialCustomers: seq<Customer>)
      ensures StockAudited() && ItemsReferenceSales()
      ensures stock == initialStock && movements == [] && customers == initialCustomers
      ensures sales == [] && saleItems == [] && receivables == [] && payments == [] && closings == []
    {
      stock := initialStock;
      openingStock := initialStock;
      movements := [];
      customers := initialCustomers;
      sales := [];
      saleItems := [];
      receivables := [];
      payments := [];
      closings := [];
    }
  }
}
