/**
 * The sale engine: validation of a sale request, totals, the sale number, the stock
 * deductions, the receivable and debt of a credit sale, and cancellation. The writes are
 * issued one after another with no transaction, exactly in the order of the service.
 */
module Sales {
  import opened Util
  import opened Schema
  import opened Warehouses
  import opened SaleNumbers

  /** Today as the clock reads it: a day number for comparisons and the calendar date for printing. */
  datatype Today = Today(day: int, date: CalendarDate)

  datatype ItemRequest = ItemRequest(productId: Uuid, quantity: int, unitPrice: int)

  datatype SaleRequest = SaleRequest(
    customerId: Option<Uuid>, warehouseId: Uuid, kind: SaleType,
    items: seq<ItemRequest>, discount: Option<int>, notes: Option<string>)

  datatype SaleError =
    | CreditNeedsCustomer
    | CustomerNotFound
    | CreditExceeded(available: int, required: int)
    | OutOfStock(inStock: nat)
    | SaleNotFound
    | AlreadyCancelled

  /** What `create` returns: the new sale's id, its row and its item rows. */
  datatype CreatedSale = CreatedSale(id: Uuid, sale: Sale, items: seq<SaleItem>)

  /** A credit sale is due this many days after it is made. */
  const DueDays: int := 30

  /** Σ unitPrice × quantity over the requested items (the `reduce` from the left). */
  function Subtotal(items: seq<ItemRequest>): int
    decreases |items|
  {
    if items == [] then 0
    else Subtotal(items[..|items| - 1]) + items[|items| - 1].unitPrice * items[|items| - 1].quantity
  }

  /** The discount, 0 when the request has none. */
  function DiscountOf(req: SaleRequest): int {
    req.discount.GetOr(0)
  }

  function Total(req: SaleRequest): int {
    Subtotal(req.items) - DiscountOf(req)
  }

  /** Available credit: the limit minus what the customer already owes. */
  function Available(c: Customer): int {
    c.creditLimit - c.currentDebt
  }

  predicate IsCreditWithCustomer(kind: SaleType, customerId: Option<Uuid>) {
    kind == Credito && customerId.Some?
  }

  /** The checks `create` makes before its first write; None means the sale may proceed. */
  function CheckCredit(customers: seq<Customer>, req: SaleRequest): (r: Option<SaleError>)
    ensures r.None? <==> (req.kind.Contado?
                          || (req.customerId.Some? && req.customerId.value < |customers|
                              && Total(req) <= Available(customers[req.customerId.value])))
    ensures r == Some(CreditNeedsCustomer) <==> req.kind.Credito? && req.customerId.None?
    ensures r == Some(CustomerNotFound) <==> req.kind.Credito? && req.customerId.Some? && req.customerId.value >= |customers|
    ensures req.kind.Credito? && req.customerId.Some? && req.customerId.value < |customers|
            && Total(req) > Available(customers[req.customerId.value]) ==>
              r == Some(CreditExceeded(Available(customers[req.customerId.value]), Total(req)))
    ensures r.Some? && r.value.CreditExceeded? ==>
              && req.customerId.Some? && req.customerId.value < |customers|
              && r.value.available == Available(customers[req.customerId.value])
              && r.value.required == Total(req)
              && r.value.required > r.value.available
    ensures r.None? && req.kind.Credito? ==>
              customers[req.customerId.value].currentDebt + Total(req) <= customers[req.customerId.value].creditLimit
  {
    if req.kind == Credito && req.customerId.None? then Some(CreditNeedsCustomer)
    else if req.kind == Credito then
      var id := req.customerId.value;
      if id >= |customers| then Some(CustomerNotFound)
      else
        var total := Total(req);
        var available := Available(customers[id]);
        if total > available then Some(CreditExceeded(available, total)) else None
    else None
  }

  /** The item rows stored for a sale: each with the subtotal unitPrice × quantity. */
  function ItemRows(saleId: Uuid, items: seq<ItemRequest>): (rows: seq<SaleItem>)
    ensures |rows| == |items|
    ensures forall i :: 0 <= i < |items| ==>
              rows[i] == SaleItem(saleId, items[i].productId, items[i].quantity, items[i].unitPrice, items[i].unitPrice * items[i].quantity)
  {
    seq(|items|, i requires 0 <= i < |items| =>
      SaleItem(saleId, items[i].productId, items[i].quantity, items[i].unitPrice, items[i].unitPrice * items[i].quantity))
  }

  function SumSubtotals(rows: seq<SaleItem>): int
    decreases |rows|
  {
    if rows == [] then 0 else SumSubtotals(rows[..|rows| - 1]) + rows[|rows| - 1].subtotal
  }

  /** The item rows' subtotals add up to the sale's subtotal. */
  lemma {:induction false} ItemRowsAddUp(saleId: Uuid, items: seq<ItemRequest>)
    ensures SumSubtotals(ItemRows(saleId, items)) == Subtotal(items)
    decreases |items|
  {
    if items != [] {
      var front := items[..|items| - 1];
      assert ItemRows(saleId, items)[..|items| - 1] == ItemRows(saleId, front);
      ItemRowsAddUp(saleId, front);
    }
  }

  /** One requested item's share of the subtotal. */
  function LineAmount(item: ItemRequest): int {
    item.unitPrice * item.quantity
  }

  lemma {:induction false} SubtotalIsSum(items: seq<ItemRequest>)
    ensures Subtotal(items) == SumOf(items, LineAmount)
    decreases |items|
  {
    if items != [] {
      var front := items[..|items| - 1];
      var last := items[|items| - 1];
      SubtotalIsSum(front);
      assert items == front + [last];
      SumOfConcat(front, [last], LineAmount);
      assert [last][1..] == [];
    }
  }

  /** The subtotal does not depend on the order of the items: the same items in any order give the same subtotal. */
  lemma SubtotalOrderFree(a: seq<ItemRequest>, b: seq<ItemRequest>)
    requires multiset(a) == multiset(b)
    ensures Subtotal(a) == Subtotal(b)
  {
    SubtotalIsSum(a);
    SubtotalIsSum(b);
    SumOfPermutation(a, b, LineAmount);
  }

  /**
   * The stored sale row agrees with its stored item rows: the sale's subtotal is the sum of
   * the item subtotals, and its total is that sum less the discount (0 when none is given).
   */
  lemma SaleTotalMatchesItems(req: SaleRequest, saleId: Uuid, userId: Uuid, saleNumber: string, day: int)
    ensures var sale := NewSale(req, userId, saleNumber, day);
            && sale.subtotal == SumSubtotals(ItemRows(saleId, req.items))
            && sale.total == SumSubtotals(ItemRows(saleId, req.items)) - req.discount.GetOr(0)
            && sale.total == Total(req)
  {
    ItemRowsAddUp(saleId, req.items);
  }

  /** The stock lines of a sale: each item taken out of the warehouse. */
  function SaleLines(items: seq<ItemRequest>): (lines: seq<StockLine>)
    ensures |lines| == |items|
    ensures forall i :: 0 <= i < |items| ==> lines[i] == StockLine(items[i].productId, -items[i].quantity)
  {
    seq(|items|, i requires 0 <= i < |items| => StockLine(items[i].productId, -items[i].quantity))
  }

  /** The stock lines of a cancellation: each stored item put back. */
  function RestoreLines(rows: seq<SaleItem>): (lines: seq<StockLine>)
    ensures |lines| == |rows|
    ensures forall i :: 0 <= i < |rows| ==> lines[i] == StockLine(rows[i].productId, rows[i].quantity)
  {
    seq(|rows|, i requires 0 <= i < |rows| => StockLine(rows[i].productId, rows[i].quantity))
  }

  /** The item rows of one sale, in table order. */
  function ItemsOf(saleItems: seq<SaleItem>, saleId: Uuid): (r: seq<SaleItem>)
    ensures forall x :: x in r <==> x in saleItems && x.saleId == saleId
    ensures forall x :: multiset(r)[x] == if x.saleId == saleId then multiset(saleItems)[x] else 0
    decreases |saleItems|
  {
    if saleItems == [] then []
    else
      assert saleItems == [saleItems[0]] + saleItems[1..];
      (if saleItems[0].saleId == saleId then [saleItems[0]] else []) + ItemsOf(saleItems[1..], saleId)
  }

  /** The number of sales whose creation day is today or later (`createdAt >= today's midnight`). */
  function SalesSince(sales: seq<Sale>, day: int): nat
    decreases |sales|
  {
    if sales == [] then 0
    else SalesSince(sales[..|sales| - 1], day) + (if sales[|sales| - 1].createdDay >= day then 1 else 0)
  }

  /** The count is the number of sales whose creation day is on or after the day, as the SQL COUNT reads it. */
  lemma {:induction false} SalesSinceCounts(sales: seq<Sale>, day: int)
    ensures SalesSince(sales, day) == |set i | 0 <= i < |sales| && sales[i].createdDay >= day|
    decreases |sales|
  {
    var all := set i | 0 <= i < |sales| && sales[i].createdDay >= day;
    if sales == [] {
      assert all == {};
    } else {
      var n := |sales| - 1;
      var front := sales[..n];
      SalesSinceCounts(front, day);
      var before := set i | 0 <= i < |front| && front[i].createdDay >= day;
      assert n !in before;
      if sales[n].createdDay >= day {
        assert all == before + {n};
      } else {
        assert all == before;
      }
    }
  }

  function SaleReason(saleNumber: string): string {
    "Venta " + saleNumber
  }

  function CancelReason(saleNumber: string): string {
    "Cancelación de venta " + saleNumber
  }

  /** The sale row inserted by `create`. */
  function NewSale(req: SaleRequest, userId: Uuid, saleNumber: string, day: int): Sale {
    Sale(saleNumber, req.customerId, userId, req.warehouseId, req.kind, Completada,
         Subtotal(req.items), DiscountOf(req), Total(req), req.notes, day)
  }

  /** The receivable opened for a credit sale: nothing paid yet, the whole total outstanding. */
  function NewReceivable(saleId: Uuid, customerId: Uuid, total: int, dueDay: int): Receivable {
    Receivable(saleId, customerId, total, 0, total, AccountStatus.Pendiente, dueDay)
  }

  /** The reversal of a cancelled credit sale: its receivables are closed with nothing outstanding. */
  function WriteOff(receivables: seq<Receivable>, saleId: Uuid): (r: seq<Receivable>)
    ensures |r| == |receivables|
    ensures forall i :: 0 <= i < |r| ==>
              if receivables[i].saleId == saleId
              then r[i] == receivables[i].(status := Pagada, balance := 0)
              else r[i] == receivables[i]
  {
    seq(|receivables|, i requires 0 <= i < |receivables| =>
      if receivables[i].saleId == saleId then receivables[i].(status := Pagada, balance := 0) else receivables[i])
  }

  // ---------------------------------------------------------------------------
  // Properties relating sale creation and cancellation
  // ---------------------------------------------------------------------------

  lemma {:induction false} RestoreLinesCancelSaleLines(saleId: Uuid, items: seq<ItemRequest>, productId: Uuid)
    ensures LineTotal(RestoreLines(ItemRows(saleId, items)), productId) == -LineTotal(SaleLines(items), productId)
    decreases |items|
  {
    if items != [] {
      assert RestoreLines(ItemRows(saleId, items))[1..] == RestoreLines(ItemRows(saleId, items[1..]));
      assert SaleLines(items)[1..] == SaleLines(items[1..]);
      RestoreLinesCancelSaleLines(saleId, items[1..], productId);
    }
  }

  /**
   * Cancelling a sale whose stock deductions all went through puts every quantity back:
   * the restoration cannot fail and leaves every (warehouse, product) pair as it was.
   */
  lemma CancelRestoresStock(levels: map<StockKey, nat>, warehouseId: Uuid, saleId: Uuid, items: seq<ItemRequest>,
                            userId: Uuid, cancelUserId: Uuid, saleNumber: string)
    requires forall i :: 0 <= i < |items| ==> items[i].quantity >= 0
    requires AdjustEach(levels, warehouseId, SaleLines(items), Venta, userId, Some(SaleReason(saleNumber)), Some(saleId)).failure.None?
    ensures var sold := AdjustEach(levels, warehouseId, SaleLines(items), Venta, userId, Some(SaleReason(saleNumber)), Some(saleId));
            var back := AdjustEach(sold.levels, warehouseId, RestoreLines(ItemRows(saleId, items)), Ajuste, cancelUserId,
                                   Some(CancelReason(saleNumber)), Some(saleId));
            && back.failure.None?
            && forall w, p :: QuantityOf(back.levels, w, p) == QuantityOf(levels, w, p)
  {
    var sold := AdjustEach(levels, warehouseId, SaleLines(items), Venta, userId, Some(SaleReason(saleNumber)), Some(saleId));
    var restore := RestoreLines(ItemRows(saleId, items));
    AdjustEachNonNegativeSucceeds(sold.levels, warehouseId, restore, Ajuste, cancelUserId, Some(CancelReason(saleNumber)), Some(saleId));
    AdjustEachNet(levels, warehouseId, SaleLines(items), Venta, userId, Some(SaleReason(saleNumber)), Some(saleId));
    AdjustEachNet(sold.levels, warehouseId, restore, Ajuste, cancelUserId, Some(CancelReason(saleNumber)), Some(saleId));
    forall p ensures LineTotal(restore, p) == -LineTotal(SaleLines(items), p) {
      RestoreLinesCancelSaleLines(saleId, items, p);
    }
  }

  /**
   * Without the sign condition the restoration can be refused: lines (p, −5) then (p, +5)
   * take stock 0 up to 5 and back to 0, and the cancellation's first line then asks for −5.
   */
  lemma CancelMixedSignsRefused()
    ensures var items := [ItemRequest(0, -5, 100), ItemRequest(0, 5, 100)];
            var sold := AdjustEach(map[], 0, SaleLines(items), Venta, 0, Some(SaleReason("V")), Some(0));
            var back := AdjustEach(sold.levels, 0, RestoreLines(ItemRows(0, items)), Ajuste, 0,
                                   Some(CancelReason("V")), Some(0));
            && sold.failure.None?
            && back.failure == Some(InsufficientStock(0))
  {
    var items := [ItemRequest(0, -5, 100), ItemRequest(0, 5, 100)];
    var lines := SaleLines(items);
    assert lines == [StockLine(0, 5), StockLine(0, -5)];
    assert lines[1..] == [StockLine(0, -5)] && lines[1..][1..] == [];
    var sold := AdjustEach(map[], 0, lines, Venta, 0, Some(SaleReason("V")), Some(0));
    var first := Adjust(map[], 0, 0, 5);
    assert first.Ok? && first.value.newStock == 5;
    var mid := Stored(map[], 0, first.value);
    assert QuantityOf(mid, 0, 0) == 5;
    var second := Adjust(mid, 0, 0, -5);
    assert second.Ok? && second.value.newStock == 0;
    var end := Stored(mid, 0, second.value);
    var last := AdjustEach(end, 0, lines[1..][1..], Venta, 0, Some(SaleReason("V")), Some(0));
    assert last == Batch(end, [], None);
    var rest := AdjustEach(mid, 0, lines[1..], Venta, 0, Some(SaleReason("V")), Some(0));
    assert rest.levels == end && rest.failure.None?;
    assert sold.levels == end && sold.failure.None?;
    assert QuantityOf(end, 0, 0) == 0;
    var restore := RestoreLines(ItemRows(0, items));
    assert restore[0] == StockLine(0, -5);
  }

  /**
   * A freshly created sale's items are exactly the rows `create` stored for it. The requires is
   * `Database.ItemsReferenceSales` with the new sale's id, the next position of the sales table.
   */
  lemma {:induction false} ItemsOfFreshSale(saleItems: seq<SaleItem>, saleId: Uuid, items: seq<ItemRequest>)
    requires forall i :: 0 <= i < |saleItems| ==> saleItems[i].saleId < saleId
    ensures ItemsOf(saleItems + ItemRows(saleId, items), saleId) == ItemRows(saleId, items)
    decreases |saleItems|
  {
    if saleItems == [] {
      assert saleItems + ItemRows(saleId, items) == ItemRows(saleId, items);
      ItemsOfOwnRows(ItemRows(saleId, items), saleId);
    } else {
      assert (saleItems + ItemRows(saleId, items))[1..] == saleItems[1..] + ItemRows(saleId, items);
      ItemsOfFreshSale(saleItems[1..], saleId, items);
    }
  }

  /** Appending a new sale and its item rows keeps every item row pointing at a stored sale. */
  lemma FreshRowsReferenceSales(sales: seq<Sale>, saleItems: seq<SaleItem>, sale: Sale, items: seq<ItemRequest>)
    requires forall i :: 0 <= i < |saleItems| ==> saleItems[i].saleId < |sales|
    ensures var all := saleItems + ItemRows(|sales|, items);
            && (forall i :: 0 <= i < |all| ==> all[i].saleId < |sales + [sale]|)
            && ItemsOf(all, |sales|) == ItemRows(|sales|, items)
  {
    ItemsOfFreshSale(saleItems, |sales|, items);
  }

  /** Rows that all belong to the sale are all its items, in order. */
  lemma {:induction false} ItemsOfOwnRows(rows: seq<SaleItem>, saleId: Uuid)
    requires forall i :: 0 <= i < |rows| ==> rows[i].saleId == saleId
    ensures ItemsOf(rows, saleId) == rows
    decreases |rows|
  {
    if rows != [] {
      ItemsOfOwnRows(rows[1..], saleId);
      assert [rows[0]] + rows[1..] == rows;
    }
  }

  /** The sale numbers of one day: `name(n)` is the number of the day's sale with `n` earlier sales of the day. */
  function DayNumbers(date: CalendarDate): nat -> string {
    (n: nat) => SaleNumber(date, n)
  }

  ghost predicate Injective(name: nat -> string) {
    forall m, n :: name(m) == name(n) ==> m == n
  }

  /** For any real date, different counts give different sale numbers. */
  lemma DayNumbersInjective(date: CalendarDate)
    requires date.month < 100 && date.day < 100
    ensures Injective(DayNumbers(date))
  {
    forall m: nat, n: nat | DayNumbers(date)(m) == DayNumbers(date)(n)
      ensures m == n
    {
      SaleNumberInjective(date, m, date, n);
    }
  }

  /**
   * The numbering `create` keeps from one day on: every sale made on or after `day`
   * carries the name of the count of such sales stored before it.
   */
  ghost predicate NumberedFrom(sales: seq<Sale>, day: int, name: nat -> string) {
    forall i :: 0 <= i < |sales| && sales[i].createdDay >= day ==>
      sales[i].saleNumber == name(SalesSince(sales[..i], day))
  }

  /** A sale made on or after the day makes the count of later prefixes strictly larger. */
  lemma {:induction false} SalesSinceGrows(sales: seq<Sale>, i: nat, j: nat, day: int)
    requires i < j <= |sales| && sales[i].createdDay >= day
    ensures SalesSince(sales[..i], day) < SalesSince(sales[..j], day)
    decreases j
  {
    assert sales[..j][..j - 1] == sales[..j - 1];
    if j == i + 1 {
      assert sales[..j][j - 1] == sales[i];
    } else {
      SalesSinceGrows(sales, i, j - 1, day);
    }
  }

  /** Appending the sale `create` numbers from the current count keeps the numbering. */
  lemma NumberingExtends(sales: seq<Sale>, s: Sale, day: int, name: nat -> string)
    requires NumberedFrom(sales, day, name)
    requires s.saleNumber == name(SalesSince(sales, day))
    ensures NumberedFrom(sales + [s], day, name)
  {
    var all := sales + [s];
    forall i | 0 <= i < |all| && all[i].createdDay >= day
      ensures all[i].saleNumber == name(SalesSince(all[..i], day))
    {
      if i < |sales| {
        assert all[..i] == sales[..i];
      } else {
        assert all[..i] == sales;
      }
    }
  }

  /** Under an injective numbering, the number `create` hands out is carried by no sale of the day. */
  lemma NewSaleNumberFresh(sales: seq<Sale>, day: int, name: nat -> string)
    requires NumberedFrom(sales, day, name) && Injective(name)
    ensures forall i :: 0 <= i < |sales| && sales[i].createdDay >= day ==>
              sales[i].saleNumber != name(SalesSince(sales, day))
  {
    forall i | 0 <= i < |sales| && sales[i].createdDay >= day
      ensures sales[i].saleNumber != name(SalesSince(sales, day))
    {
      assert sales[..|sales|] == sales;
      SalesSinceGrows(sales, i, |sales|, day);
    }
  }

  /** Under an injective numbering, no two sales of the day share a number (`saleNumber` is unique). */
  lemma NumberedSalesDistinct(sales: seq<Sale>, day: int, name: nat -> string)
    requires NumberedFrom(sales, day, name) && Injective(name)
    ensures forall i, j :: 0 <= i < j < |sales| && sales[i].createdDay >= day && sales[j].createdDay >= day ==>
              sales[i].saleNumber != sales[j].saleNumber
  {
    forall i, j | 0 <= i < j < |sales| && sales[i].createdDay >= day && sales[j].createdDay >= day
      ensures sales[i].saleNumber != sales[j].saleNumber
    {
      SalesSinceGrows(sales, i, j, day);
    }
  }

  // ---------------------------------------------------------------------------
  // The service
  // ---------------------------------------------------------------------------

  class SalesService {
    const db: Database
    const warehouses: WarehousesService

    ghost predicate Valid() {
      warehouses.db == db
    }

    constructor (db: Database, warehouses: WarehousesService)
      requires warehouses.db == db
      ensures this.db == db && this.warehouses == warehouses && Valid()
    {
      this.db := db;
      this.warehouses := warehouses;
    }

    /** The next sale number for today: one more than the sales created since midnight, any status. */
    method GenerateSaleNumber(today: Today) returns (saleNumber: string)
      ensures saleNumber == SaleNumber(today.date, SalesSince(db.sales, today.day))
    {
      var count := SalesSince(db.sales, today.day);
      saleNumber := SaleNumber(today.date, count);
    }

    /**
     * One iteration of the stock run: the adjustment of line `i`. A refusal writes nothing
     * and is where the whole run stops; otherwise one movement is written and the run
     * resumes at the next line.
     */
    method AdjustLine(warehouseId: Uuid, lines: seq<StockLine>, i: nat, kind: MovementType, userId: Uuid,
                      reason: Option<string>, referenceId: Option<Uuid>, ghost whole: Batch, ghost written: seq<Movement>)
      returns (failure: Option<StockError>, ghost written': seq<Movement>)
      requires Valid() && db.StockAudited() && i < |lines|
      requires RunResumes(whole, written, db.stock, warehouseId, lines, i, kind, userId, reason, referenceId)
      modifies db`stock, db`movements
      ensures db.StockAudited()
      ensures failure.Some? ==>
                && whole == Batch(db.stock, written, failure)
                && db.stock == old(db.stock) && db.movements == old(db.movements)
      ensures failure.None? ==>
                && |written'| == |written| + 1 && written'[..|written|] == written
                && db.movements == old(db.movements) + [written'[|written|]]
                && RunResumes(whole, written', db.stock, warehouseId, lines, i + 1, kind, userId, reason, referenceId)
    {
      var adjusted := warehouses.AdjustStock(warehouseId, lines[i].productId, lines[i].quantity, kind, userId, reason, referenceId);
      if adjusted.Err? {
        failure, written' := Some(adjusted.error), written;
        assert written + [] == written;
      } else {
        var m := Record(warehouseId, kind, userId, reason, referenceId, adjusted.value);
        failure, written' := None, written + [m];
        ghost var next := AdjustFrom(db.stock, warehouseId, lines, i + 1, kind, userId, reason, referenceId);
        assert written + ([m] + next.log) == written' + next.log;
      }
    }

    /**
     * The stock run shared by `create` and `cancel`: one adjustment per line, in order, stopping
     * at the first that fails and leaving the earlier ones written; specified by `AdjustEach`.
     */
    method AdjustLines(warehouseId: Uuid, lines: seq<StockLine>, kind: MovementType, userId: Uuid,
                       reason: Option<string>, referenceId: Option<Uuid>) returns (failure: Option<StockError>)
      requires Valid() && db.StockAudited()
      modifies db`stock, db`movements
      ensures db.StockAudited()
      ensures var b := AdjustEach(old(db.stock), warehouseId, lines, kind, userId, reason, referenceId);
              && db.stock == b.levels
              && db.movements == old(db.movements) + b.log
              && failure == b.failure
    {
      ghost var whole := AdjustEach(db.stock, warehouseId, lines, kind, userId, reason, referenceId);
      ghost var written: seq<Movement> := [];
      assert RunResumes(whole, written, db.stock, warehouseId, lines, 0, kind, userId, reason, referenceId) by {
        AdjustFromSuffix(db.stock, warehouseId, lines, 0, kind, userId, reason, referenceId);
        assert lines[0..] == lines && [] + whole.log == whole.log;
      }
      var i := 0;
      while i < |lines|
        invariant 0 <= i <= |lines|
        invariant db.StockAudited()
        invariant db.movements == old(db.movements) + written
        invariant RunResumes(whole, written, db.stock, warehouseId, lines, i, kind, userId, reason, referenceId)
      {
        failure, written := AdjustLine(warehouseId, lines, i, kind, userId, reason, referenceId, whole, written);
        if failure.Some? {
          return;
        }
        i := i + 1;
      }
      assert whole == Batch(db.stock, written, None) by {
        assert AdjustFrom(db.stock, warehouseId, lines, i, kind, userId, reason, referenceId) == Batch(db.stock, [], None);
        assert written + [] == written;
      }
      failure := None;
    }

    /** Insert the sale row, numbered for today and COMPLETADA, and then its item rows. */
    method InsertSale(req: SaleRequest, userId: Uuid, today: Today) returns (saleId: Uuid, sale: Sale, rows: seq<SaleItem>)
      modifies db`sales, db`saleItems
      ensures saleId == old(|db.sales|)
      ensures sale == NewSale(req, userId, SaleNumber(today.date, SalesSince(old(db.sales), today.day)), today.day)
      ensures rows == ItemRows(saleId, req.items)
      ensures db.sales == old(db.sales) + [sale] && db.saleItems == old(db.saleItems) + rows
      ensures old(db.ItemsReferenceSales()) ==> db.ItemsReferenceSales() && ItemsOf(db.saleItems, saleId) == rows
    {
      var saleNumber := GenerateSaleNumber(today);
      saleId := |db.sales|;
      sale := NewSale(req, userId, saleNumber, today.day);
      rows := ItemRows(saleId, req.items);
      if db.ItemsReferenceSales() {
        FreshRowsReferenceSales(db.sales, db.saleItems, sale, req.items);
      }
      db.sales := db.sales + [sale];
      db.saleItems := db.saleItems + rows;
    }

    /** Open the receivable of a credit sale and raise the customer's debt by the sale total. */
    method OpenCredit(saleId: Uuid, customerId: Uuid, total: int, dueDay: int)
      modifies db`receivables, db`customers
      ensures db.receivables == old(db.receivables) + [NewReceivable(saleId, customerId, total, dueDay)]
      ensures db.customers == RaiseDebt(old(db.customers), customerId, total)
    {
      db.receivables := db.receivables + [NewReceivable(saleId, customerId, total, dueDay)];
      db.customers := RaiseDebt(db.customers, customerId, total);
    }

    /**
     * The tables after the writes of `create`, from the sale row on, relative to the tables
     * before them: the sale row (COMPLETADA), its item rows, one VENTA stock deduction per
     * item (stopping at the first that would make stock negative, with everything written
     * so far left in place), and for a completed credit sale a receivable due in 30 days
     * and the customer's debt raised by the total.
     */
    twostate predicate SaleRecorded(req: SaleRequest, userId: Uuid, today: Today, new r: Result<CreatedSale, SaleError>)
      reads db
    {
      var id := old(|db.sales|);
      var saleNumber := SaleNumber(today.date, SalesSince(old(db.sales), today.day));
      var sale := NewSale(req, userId, saleNumber, today.day);
      var b := AdjustEach(old(db.stock), req.warehouseId, SaleLines(req.items), Venta, userId, Some(SaleReason(saleNumber)), Some(id));
      && db.sales == old(db.sales) + [sale]
      && db.saleItems == old(db.saleItems) + ItemRows(id, req.items)
      && db.stock == b.levels
      && db.movements == old(db.movements) + b.log
      && (b.failure.Some? ==>
            && r == Err(OutOfStock(b.failure.value.available))
            && db.receivables == old(db.receivables) && db.customers == old(db.customers))
      && (b.failure.None? ==> r == Ok(CreatedSale(id, sale, ItemRows(id, req.items))))
      && (b.failure.None? && IsCreditWithCustomer(req.kind, req.customerId) ==>
            && db.receivables == old(db.receivables) + [NewReceivable(id, req.customerId.value, Total(req), today.day + DueDays)]
            && db.customers == RaiseDebt(old(db.customers), req.customerId.value, Total(req)))
      && (b.failure.None? && !IsCreditWithCustomer(req.kind, req.customerId) ==>
            db.receivables == old(db.receivables) && db.customers == old(db.customers))
    }

    /**
     * The stock run of a sale row already inserted, then, once every item has been deducted,
     * the receivable and the debt of a credit sale.
     */
    method SettleSale(req: SaleRequest, userId: Uuid, today: Today, saleId: Uuid, sale: Sale, rows: seq<SaleItem>)
      returns (r: Result<CreatedSale, SaleError>)
      requires Valid() && db.StockAudited()
      modifies db`stock, db`movements, db`receivables, db`customers
      ensures db.StockAudited()
      ensures var b := AdjustEach(old(db.stock), req.warehouseId, SaleLines(req.items), Venta, userId,
                                  Some(SaleReason(sale.saleNumber)), Some(saleId));
        && db.stock == b.levels
        && db.movements == old(db.movements) + b.log
        && (b.failure.Some? ==>
              && r == Err(OutOfStock(b.failure.value.available))
              && db.receivables == old(db.receivables) && db.customers == old(db.customers))
        && (b.failure.None? ==> r == Ok(CreatedSale(saleId, sale, rows)))
        && (b.failure.None? && IsCreditWithCustomer(req.kind, req.customerId) ==>
              && db.receivables == old(db.receivables) + [NewReceivable(saleId, req.customerId.value, sale.total, today.day + DueDays)]
              && db.customers == RaiseDebt(old(db.customers), req.customerId.value, sale.total))
        && (b.failure.None? && !IsCreditWithCustomer(req.kind, req.customerId) ==>
              db.receivables == old(db.receivables) && db.customers == old(db.customers))
    {
      var failure := AdjustLines(req.warehouseId, SaleLines(req.items), Venta, userId, Some(SaleReason(sale.saleNumber)), Some(saleId));
      if failure.Some? {
        return Err(OutOfStock(failure.value.available));
      }
      if req.kind == Credito && req.customerId.Some? {
        OpenCredit(saleId, req.customerId.value, sale.total, today.day + DueDays);
      }
      r := Ok(CreatedSale(saleId, sale, rows));
    }

    /** The writes of `create` once its checks have passed. */
    method RecordSale(req: SaleRequest, userId: Uuid, today: Today) returns (r: Result<CreatedSale, SaleError>)
      requires Valid() && db.StockAudited()
      modifies db`stock, db`movements, db`sales, db`saleItems, db`receivables, db`customers
      ensures db.StockAudited()
      ensures SaleRecorded(req, userId, today, r)
    {
      var saleId, sale, rows := InsertSale(req, userId, today);
      r := SettleSale(req, userId, today, saleId, sale, rows);
    }

    /**
     * Create a sale. Before any write: a credit sale needs an existing customer whose
     * available credit covers the total; a refusal writes nothing. Then the writes that
     * `SaleRecorded` describes, in that order.
     */
    method Create(req: SaleRequest, userId: Uuid, today: Today) returns (r: Result<CreatedSale, SaleError>)
      requires Valid() && db.StockAudited()
      modifies db`stock, db`movements, db`sales, db`saleItems, db`receivables, db`customers
      ensures db.StockAudited()
      ensures var check := CheckCredit(old(db.customers), req);
        check.Some? ==>
          && r == Err(check.value)
          && db.sales == old(db.sales) && db.saleItems == old(db.saleItems)
          && db.stock == old(db.stock) && db.movements == old(db.movements)
          && db.receivables == old(db.receivables) && db.customers == old(db.customers)
      ensures CheckCredit(old(db.customers), req).None? ==> SaleRecorded(req, userId, today, r)
    {
      var refused := CheckCredit(db.customers, req);
      if refused.Some? {
        return Err(refused.value);
      }
      r := RecordSale(req, userId, today);
    }

    /**
     * Cancel a sale: refused when it is unknown or already CANCELADA. Otherwise every item
     * is put back with an AJUSTE movement (a failing restoration stops the cancellation with
     * the earlier ones left in place), the sale becomes CANCELADA, and for a credit sale
     * its receivable is written off and the customer's debt lowered by the sale total,
     * never below 0.
     */
    method Cancel(saleId: Uuid, userId: Uuid) returns (r: Result<(), SaleError>)
      requires Valid() && db.StockAudited()
      modifies db`stock, db`movements, db`sales, db`receivables, db`customers
      ensures db.StockAudited()
      ensures saleId >= old(|db.sales|) || old(db.sales[saleId].status) == Cancelada ==>
                && r == Err(if saleId >= old(|db.sales|) then SaleNotFound else AlreadyCancelled)
                && db.sales == old(db.sales) && db.stock == old(db.stock) && db.movements == old(db.movements)
                && db.receivables == old(db.receivables) && db.customers == old(db.customers)
      ensures saleId < old(|db.sales|) && old(db.sales[saleId].status) != Cancelada ==>
                var sale := old(db.sales[saleId]);
                var b := AdjustEach(old(db.stock), sale.warehouseId, RestoreLines(ItemsOf(old(db.saleItems), saleId)), Ajuste,
                                    userId, Some(CancelReason(sale.saleNumber)), Some(saleId));
                && db.stock == b.levels
                && db.movements == old(db.movements) + b.log
                && (b.failure.Some? ==>
                      && r == Err(OutOfStock(b.failure.value.available))
                      && db.sales == old(db.sales) && db.receivables == old(db.receivables) && db.customers == old(db.customers))
                && (b.failure.None? ==>
                      && r == Ok(())
                      && db.sales == old(db.sales)[saleId := sale.(status := Cancelada)])
                && (b.failure.None? && IsCreditWithCustomer(sale.kind, sale.customerId) ==>
                      && db.receivables == WriteOff(old(db.receivables), saleId)
                      && db.customers == LowerDebt(old(db.customers), sale.customerId.value, sale.total))
                && (b.failure.None? && !IsCreditWithCustomer(sale.kind, sale.customerId) ==>
                      db.receivables == old(db.receivables) && db.customers == old(db.customers))
    {
      if saleId >= |db.sales| {
        return Err(SaleNotFound);
      }
      var sale := db.sales[saleId];
      if sale.status == Cancelada {
        return Err(AlreadyCancelled);
      }
      var items := ItemsOf(db.saleItems, saleId);

      var failure := AdjustLines(sale.warehouseId, RestoreLines(items), Ajuste, userId, Some(CancelReason(sale.saleNumber)), Some(saleId));
      if failure.Some? {
        return Err(OutOfStock(failure.value.available));
      }

      db.sales := db.sales[saleId := sale.(status := Cancelada)];

      if sale.kind == Credito && sale.customerId.Some? {
        db.receivables := WriteOff(db.receivables, saleId);
        db.customers := LowerDebt(db.customers, sale.customerId.value, sale.total);
      }
      r := Ok(());
    }
  }
}
