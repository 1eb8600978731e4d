/**
 * The cash closing of one user's shift in one warehouse on one day: one closing per
 * (warehouse, user, day), carrying the day's cash, credit and total sales and the
 * payments that user collected.
 */
module CashClosings {
  import opened Util
  import opened Schema

  datatype ClosingError = DuplicateClosing

  /** Whether a closing already exists for this warehouse, user and day. */
  predicate HasClosing(closings: seq<CashClosing>, warehouseId: Uuid, userId: Uuid, day: int) {
    exists i :: 0 <= i < |closings| && closings[i].warehouseId == warehouseId
                && closings[i].userId == userId && closings[i].day == day
  }

  /** At most one closing per (warehouse, user, day): what the duplicate check of create keeps. */
  predicate OneClosingPerKey(closings: seq<CashClosing>) {
    forall i, j :: 0 <= i < j < |closings| ==>
      !(closings[i].warehouseId == closings[j].warehouseId && closings[i].userId == closings[j].userId
        && closings[i].day == closings[j].day)
  }

  /** Appending a closing whose key the duplicate check found free keeps one closing per key. */
  lemma AppendFreeKeyKeepsOnePerKey(closings: seq<CashClosing>, c: CashClosing)
    requires OneClosingPerKey(closings)
    requires !HasClosing(closings, c.warehouseId, c.userId, c.day)
    ensures OneClosingPerKey(closings + [c])
    ensures HasClosing(closings + [c], c.warehouseId, c.userId, c.day)
  {
    var all := closings + [c];
    forall i, j | 0 <= i < j < |all|
      ensures !(all[i].warehouseId == all[j].warehouseId && all[i].userId == all[j].userId && all[i].day == all[j].day)
    {
      if j == |closings| {
        assert all[i] == closings[i];
      }
    }
    assert all[|closings|] == c;
  }

  /** The sales a closing counts: COMPLETADA, made by the user, in the warehouse, on the day. */
  predicate Counted(s: Sale, warehouseId: Uuid, userId: Uuid, day: int) {
    s.warehouseId == warehouseId && s.userId == userId && s.status == Completada && s.createdDay == day
  }

  function CountedSales(sales: seq<Sale>, warehouseId: Uuid, userId: Uuid, day: int): (r: seq<Sale>)
    ensures forall s :: s in r <==> s in sales && Counted(s, warehouseId, userId, day)
    ensures forall s :: multiset(r)[s] == if Counted(s, warehouseId, userId, day) then multiset(sales)[s] else 0
    ensures |r| <= |sales|
    decreases |sales|
  {
    if sales == [] then []
    else
      assert sales == [sales[0]] + sales[1..];
      (if Counted(sales[0], warehouseId, userId, day) then [sales[0]] else [])
         + CountedSales(sales[1..], warehouseId, userId, day)
  }

  /** Σ total over the CONTADO sales. */
  function CashTotal(sales: seq<Sale>): int
    decreases |sales|
  {
    if sales == [] then 0 else (if sales[0].kind == Contado then sales[0].total else 0) + CashTotal(sales[1..])
  }

  /** Σ total over the CREDITO sales. */
  function CreditTotal(sales: seq<Sale>): int
    decreases |sales|
  {
    if sales == [] then 0 else (if sales[0].kind == Credito then sales[0].total else 0) + CreditTotal(sales[1..])
  }

  /** Σ total over all the sales. */
  function SalesTotal(sales: seq<Sale>): int
    decreases |sales|
  {
    if sales == [] then 0 else sales[0].total + SalesTotal(sales[1..])
  }

  /** A sale is either cash or credit, so the total of all sales is the cash plus the credit total. */
  lemma {:induction false} SalesTotalSplits(sales: seq<Sale>)
    ensures SalesTotal(sales) == CashTotal(sales) + CreditTotal(sales)
    decreases |sales|
  {
    if sales != [] {
      SalesTotalSplits(sales[1..]);
    }
  }

  /** Σ amount over the payments received by the user on the day, whatever the warehouse. */
  function Collections(payments: seq<Payment>, userId: Uuid, day: int): int
    decreases |payments|
  {
    if payments == [] then 0
    else (if payments[0].receivedBy == userId && payments[0].createdDay == day then payments[0].amount else 0)
         + Collections(payments[1..], userId, day)
  }

  /** A payment received by another user or on another day changes no closing's collections. */
  lemma {:induction false} CollectionsIgnoreOthers(payments: seq<Payment>, p: Payment, userId: Uuid, day: int)
    requires p.receivedBy != userId || p.createdDay != day
    ensures Collections(payments + [p], userId, day) == Collections(payments, userId, day)
    decreases |payments|
  {
    if payments == [] {
      assert ([] + [p])[1..] == [];
    } else {
      assert (payments + [p])[1..] == payments[1..] + [p];
      CollectionsIgnoreOthers(payments[1..], p, userId, day);
    }
  }

  /** A payment received by the user on the day adds exactly its amount to that day's collections. */
  lemma {:induction false} CollectionsCountMatching(payments: seq<Payment>, p: Payment, userId: Uuid, day: int)
    requires p.receivedBy == userId && p.createdDay == day
    ensures Collections(payments + [p], userId, day) == Collections(payments, userId, day) + p.amount
    decreases |payments|
  {
    if payments == [] {
      assert ([] + [p])[1..] == [];
    } else {
      assert (payments + [p])[1..] == payments[1..] + [p];
      CollectionsCountMatching(payments[1..], p, userId, day);
    }
  }

  /** One sale's share of each closing sum. */
  function CashPart(s: Sale): int { if s.kind == Contado then s.total else 0 }
  function CreditPart(s: Sale): int { if s.kind == Credito then s.total else 0 }
  function TotalPart(s: Sale): int { s.total }

  /** One payment's share of a user's collections on a day. */
  function CollectedBy(userId: Uuid, day: int): Payment -> int {
    (p: Payment) => if p.receivedBy == userId && p.createdDay == day then p.amount else 0
  }

  lemma {:induction false} ClosingSumsAreSums(sales: seq<Sale>)
    ensures CashTotal(sales) == SumOf(sales, CashPart)
    ensures CreditTotal(sales) == SumOf(sales, CreditPart)
    ensures SalesTotal(sales) == SumOf(sales, TotalPart)
    decreases |sales|
  {
    if sales != [] {
      ClosingSumsAreSums(sales[1..]);
    }
  }

  lemma {:induction false} CollectionsIsSum(payments: seq<Payment>, userId: Uuid, day: int)
    ensures Collections(payments, userId, day) == SumOf(payments, CollectedBy(userId, day))
    decreases |payments|
  {
    if payments != [] {
      CollectionsIsSum(payments[1..], userId, day);
    }
  }

  /** The three sale sums are SQL SUMs: the same sales in any order give the same totals. */
  lemma ClosingTotalsOrderFree(a: seq<Sale>, b: seq<Sale>)
    requires multiset(a) == multiset(b)
    ensures CashTotal(a) == CashTotal(b)
    ensures CreditTotal(a) == CreditTotal(b)
    ensures SalesTotal(a) == SalesTotal(b)
  {
    ClosingSumsAreSums(a);
    ClosingSumsAreSums(b);
    SumOfPermutation(a, b, CashPart);
    SumOfPermutation(a, b, CreditPart);
    SumOfPermutation(a, b, TotalPart);
  }

  /** The collections are an SQL SUM too: the same payments in any order give the same amount. */
  lemma CollectionsOrderFree(a: seq<Payment>, b: seq<Payment>, userId: Uuid, day: int)
    requires multiset(a) == multiset(b)
    ensures Collections(a, userId, day) == Collections(b, userId, day)
  {
    CollectionsIsSum(a, userId, day);
    CollectionsIsSum(b, userId, day);
    SumOfPermutation(a, b, CollectedBy(userId, day));
  }

  /**
   * A closing depends on the rows of the sales and payments tables, not on their order:
   * the queries read the tables as sets of rows.
   */
  lemma ClosingIgnoresRowOrder(sales: seq<Sale>, sales': seq<Sale>, payments: seq<Payment>, payments': seq<Payment>,
                               warehouseId: Uuid, userId: Uuid, day: int, notes: Option<string>)
    requires multiset(sales) == multiset(sales') && multiset(payments) == multiset(payments')
    ensures Closing(sales, payments, warehouseId, userId, day, notes)
         == Closing(sales', payments', warehouseId, userId, day, notes)
  {
    var counted := CountedSales(sales, warehouseId, userId, day);
    var counted' := CountedSales(sales', warehouseId, userId, day);
    assert multiset(counted) == multiset(counted');
    ClosingTotalsOrderFree(counted, counted');
    CollectionsOrderFree(payments, payments', userId, day);
  }

  /** The closing row for the day's tables. */
  function Closing(sales: seq<Sale>, payments: seq<Payment>, warehouseId: Uuid, userId: Uuid, day: int,
                   notes: Option<string>): (c: CashClosing)
    ensures c.warehouseId == warehouseId && c.userId == userId && c.day == day && c.notes == notes
    ensures var counted := CountedSales(sales, warehouseId, userId, day);
            && c.totalCash == CashTotal(counted)
            && c.totalCredit == CreditTotal(counted)
            && c.totalSales == SalesTotal(counted)
    ensures c.totalSales == c.totalCash + c.totalCredit
    ensures c.totalCollections == Collections(payments, userId, day)
  {
    var counted := CountedSales(sales, warehouseId, userId, day);
    SalesTotalSplits(counted);
    CashClosing(warehouseId, userId, day, CashTotal(counted), CreditTotal(counted), SalesTotal(counted),
                Collections(payments, userId, day), notes)
  }

  class CashClosingsService {
    const db: Database

    constructor (db: Database)
      ensures this.db == db
    {
      this.db := db;
    }

    /**
     * Close the day for a user in a warehouse: refused when that closing already exists,
     * otherwise one closing row is appended with the day's totals.
     */
    method Create(warehouseId: Uuid, day: int, notes: Option<string>, userId: Uuid)
      returns (r: Result<CashClosing, ClosingError>)
      modifies db`closings
      ensures old(HasClosing(db.closings, warehouseId, userId, day)) ==>
                r == Err(DuplicateClosing) && db.closings == old(db.closings)
      ensures !old(HasClosing(db.closings, warehouseId, userId, day)) ==>
                && r == Ok(Closing(db.sales, db.payments, warehouseId, userId, day, notes))
                && db.closings == old(db.closings) + [r.value]
      ensures HasClosing(db.closings, warehouseId, userId, day)
      ensures OneClosingPerKey(old(db.closings)) ==> OneClosingPerKey(db.closings)
    {
      if HasClosing(db.closings, warehouseId, userId, day) {
        return Err(DuplicateClosing);
      }
      var closing := Closing(db.sales, db.payments, warehouseId, userId, day, notes);
      if OneClosingPerKey(db.closings) {
        AppendFreeKeyKeepsOnePerKey(db.closings, closing);
      }
      db.closings := db.closings + [closing];
      assert db.closings[|db.closings| - 1] == closing;
      r := Ok(closing);
    }
  }
}
