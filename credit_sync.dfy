/**
 * The customer's `currentDebt` is a running copy of what the customer owes on open
 * accounts. Credit sales and payments keep the copy exact; the cancellation of a
 * credit sale that was already partly paid does not, because it lowers the debt by the
 * sale total instead of by what was still outstanding on the sale's account.
 */
module CreditSync {
  import opened Util
  import opened Schema
  import opened Sales
  import opened Receivables

  /** Σ balance over the customer's accounts. */
  function CustomerBalance(receivables: seq<Receivable>, customerId: Uuid): int
    decreases |receivables|
  {
    if receivables == [] then 0
    else (if receivables[0].customerId == customerId then receivables[0].balance else 0)
         + CustomerBalance(receivables[1..], customerId)
  }

  /** Σ balance over the accounts of one sale. */
  function SaleBalance(receivables: seq<Receivable>, saleId: Uuid): int
    decreases |receivables|
  {
    if receivables == [] then 0
    else (if receivables[0].saleId == saleId then receivables[0].balance else 0) + SaleBalance(receivables[1..], saleId)
  }

  /** Σ balance over the accounts of one sale that belong to one customer. */
  function SharedBalance(receivables: seq<Receivable>, customerId: Uuid, saleId: Uuid): int
    decreases |receivables|
  {
    if receivables == [] then 0
    else (if receivables[0].customerId == customerId && receivables[0].saleId == saleId then receivables[0].balance else 0)
         + SharedBalance(receivables[1..], customerId, saleId)
  }

  predicate BalancesNonNegative(receivables: seq<Receivable>) {
    forall i :: 0 <= i < |receivables| ==> receivables[i].balance >= 0
  }

  /** Every customer's recorded debt is exactly the balance outstanding on the customer's accounts. */
  predicate DebtSynced(customers: seq<Customer>, receivables: seq<Receivable>) {
    && BalancesNonNegative(receivables)
    && forall c :: 0 <= c < |customers| ==> customers[c].currentDebt == CustomerBalance(receivables, c)
  }

  /** Every account of the sale was opened for the given customer. */
  predicate SaleOwnedBy(receivables: seq<Receivable>, saleId: Uuid, customerId: Uuid) {
    forall i :: 0 <= i < |receivables| && receivables[i].saleId == saleId ==> receivables[i].customerId == customerId
  }

  // ---------------------------------------------------------------------------
  // How the balances move
  // ---------------------------------------------------------------------------

  lemma {:induction false} CustomerBalanceAppend(receivables: seq<Receivable>, account: Receivable, customerId: Uuid)
    ensures CustomerBalance(receivables + [account], customerId)
            == CustomerBalance(receivables, customerId) + (if account.customerId == customerId then account.balance else 0)
    decreases |receivables|
  {
    if receivables == [] {
      assert ([] + [account])[1..] == [];
    } else {
      assert (receivables + [account])[1..] == receivables[1..] + [account];
      CustomerBalanceAppend(receivables[1..], account, customerId);
    }
  }

  lemma {:induction false} CustomerBalanceUpdate(receivables: seq<Receivable>, i: nat, account: Receivable, customerId: Uuid)
    requires i < |receivables|
    ensures CustomerBalance(receivables[i := account], customerId)
            == CustomerBalance(receivables, customerId)
               - (if receivables[i].customerId == customerId then receivables[i].balance else 0)
               + (if account.customerId == customerId then account.balance else 0)
    decreases i
  {
    if i == 0 {
      assert receivables[i := account][1..] == receivables[1..];
    } else {
      assert receivables[i := account][1..] == receivables[1..][i - 1 := account];
      CustomerBalanceUpdate(receivables[1..], i - 1, account, customerId);
    }
  }

  /** With no negative balance, one account's balance is part of its customer's total. */
  lemma {:induction false} AccountWithinCustomerBalance(receivables: seq<Receivable>, i: nat)
    requires BalancesNonNegative(receivables) && i < |receivables|
    ensures receivables[i].balance <= CustomerBalance(receivables, receivables[i].customerId)
    decreases i
  {
    if i == 0 {
      CustomerBalanceNonNegative(receivables[1..], receivables[0].customerId);
    } else {
      AccountWithinCustomerBalance(receivables[1..], i - 1);
    }
  }

  lemma {:induction false} CustomerBalanceNonNegative(receivables: seq<Receivable>, customerId: Uuid)
    requires BalancesNonNegative(receivables)
    ensures CustomerBalance(receivables, customerId) >= 0
    decreases |receivables|
  {
    if receivables != [] {
      CustomerBalanceNonNegative(receivables[1..], customerId);
    }
  }

  /** Writing off a sale's accounts takes exactly their outstanding balance off each customer's total. */
  lemma {:induction false} WriteOffBalance(receivables: seq<Receivable>, saleId: Uuid, customerId: Uuid)
    ensures CustomerBalance(WriteOff(receivables, saleId), customerId)
            == CustomerBalance(receivables, customerId) - SharedBalance(receivables, customerId, saleId)
    decreases |receivables|
  {
    if receivables != [] {
      assert WriteOff(receivables, saleId)[1..] == WriteOff(receivables[1..], saleId);
      WriteOffBalance(receivables[1..], saleId, customerId);
    }
  }

  /** When the sale's accounts all belong to one customer, that customer carries the sale's whole balance. */
  lemma {:induction false} SharedBalanceOfOwner(receivables: seq<Receivable>, saleId: Uuid, owner: Uuid, customerId: Uuid)
    requires SaleOwnedBy(receivables, saleId, owner)
    ensures SharedBalance(receivables, customerId, saleId) == if customerId == owner then SaleBalance(receivables, saleId) else 0
    decreases |receivables|
  {
    if receivables != [] {
      SharedBalanceOfOwner(receivables[1..], saleId, owner, customerId);
    }
  }

  /** With no negative balance, a customer owes at least what is outstanding on any one of the customer's sales. */
  lemma {:induction false} SharedWithinCustomerBalance(receivables: seq<Receivable>, customerId: Uuid, saleId: Uuid)
    requires BalancesNonNegative(receivables)
    ensures 0 <= SharedBalance(receivables, customerId, saleId) <= CustomerBalance(receivables, customerId)
    decreases |receivables|
  {
    if receivables != [] {
      SharedWithinCustomerBalance(receivables[1..], customerId, saleId);
    }
  }

  // ---------------------------------------------------------------------------
  // Credit sales and payments keep the debt in step
  // ---------------------------------------------------------------------------

  /** A credit sale opens an account for its total and raises the debt by the same total. */
  lemma CreditSaleKeepsSync(customers: seq<Customer>, receivables: seq<Receivable>, saleId: Uuid,
                            customerId: Uuid, total: int, dueDay: int)
    requires DebtSynced(customers, receivables)
    requires total >= 0
    ensures DebtSynced(RaiseDebt(customers, customerId, total),
                       receivables + [NewReceivable(saleId, customerId, total, dueDay)])
  {
    var account := NewReceivable(saleId, customerId, total, dueDay);
    forall c | 0 <= c < |customers| {
      CustomerBalanceAppend(receivables, account, c);
    }
  }

  /**
   * A credit sale whose discount exceeds its subtotal passes the credit check with a
   * negative total and opens an account with a negative balance. The debt still equals
   * the balances, until a payment's clamp at 0 bites: a customer owing nothing buys with
   * total −100 (debt −100), then 300 on credit (debt 200, balances 200), then pays the
   * 300 in full; the debt becomes max(200 − 300, 0) = 0 while the balances add up to −100.
   */
  lemma NegativeTotalDesyncs()
    ensures var customers := [Customer(1000, 0)];
            var req := SaleRequest(Some(0), 0, Credito, [ItemRequest(0, 1, 100)], Some(200), None);
            var customers1 := RaiseDebt(customers, 0, Total(req));
            var receivables1 := [NewReceivable(0, 0, Total(req), 30)];
            var customers2 := RaiseDebt(customers1, 0, 300);
            var receivables2 := receivables1 + [NewReceivable(1, 0, 300, 30)];
            var paid := Pay(receivables2[1], 300);
            && Total(req) == -100
            && CheckCredit(customers, req).None?
            && DebtSynced(customers, [])
            && customers2[0].currentDebt == CustomerBalance(receivables2, 0) == 200
            && paid.Ok?
            && LowerDebt(customers2, 0, 300)[0].currentDebt == 0
            && CustomerBalance(receivables2[1 := paid.value], 0) == -100
  {
    var customers := [Customer(1000, 0)];
    var req := SaleRequest(Some(0), 0, Credito, [ItemRequest(0, 1, 100)], Some(200), None);
    assert Subtotal(req.items) == 100 by {
      assert req.items[..0] == [];
    }
    assert Total(req) == -100;
    var customers1 := RaiseDebt(customers, 0, -100);
    assert customers1[0].currentDebt == -100;
    var customers2 := RaiseDebt(customers1, 0, 300);
    assert customers2[0].currentDebt == 200;
    var receivables2 := [NewReceivable(0, 0, -100, 30)] + [NewReceivable(1, 0, 300, 30)];
    assert receivables2[1..][1..] == [];
    assert CustomerBalance(receivables2[1..], 0) == 300;
    assert CustomerBalance(receivables2, 0) == 200;
    var paid := Pay(receivables2[1], 300);
    assert paid.Ok? && paid.value.balance == 0 && paid.value.customerId == 0;
    var after := receivables2[1 := paid.value];
    assert after[0] == receivables2[0] && after[1..] == [paid.value];
    assert [paid.value][1..] == [];
    assert CustomerBalance(after[1..], 0) == 0;
    assert CustomerBalance(after, 0) == -100;
    assert LowerDebt(customers2, 0, 300)[0].currentDebt == 0;
  }

  /** A payment lowers the account's balance and the debt by the same amount, with the clamp at 0 never biting. */
  lemma PaymentKeepsSync(customers: seq<Customer>, receivables: seq<Receivable>, accountId: nat, amount: int)
    requires DebtSynced(customers, receivables)
    requires accountId < |receivables|
    requires Pay(receivables[accountId], amount).Ok?
    ensures DebtSynced(LowerDebt(customers, receivables[accountId].customerId, amount),
                       receivables[accountId := Pay(receivables[accountId], amount).value])
  {
    var account := receivables[accountId];
    var updated := Pay(account, amount).value;
    AccountWithinCustomerBalance(receivables, accountId);
    forall c | 0 <= c < |customers| {
      CustomerBalanceUpdate(receivables, accountId, updated, c);
    }
  }

  // ---------------------------------------------------------------------------
  // Cancelling a credit sale
  // ---------------------------------------------------------------------------

  /** The customers and receivables after a cancellation reverses a credit sale, as `cancel` is written. */
  function ReverseCreditAsWritten(customers: seq<Customer>, receivables: seq<Receivable>, saleId: Uuid, sale: Sale)
    : (r: (seq<Customer>, seq<Receivable>))
    requires sale.customerId.Some?
    ensures r.1 == WriteOff(receivables, saleId)
    ensures r.0 == LowerDebt(customers, sale.customerId.value, sale.total)
  {
    (LowerDebt(customers, sale.customerId.value, sale.total), WriteOff(receivables, saleId))
  }

  /**
   * A customer owes 700 on two credit sales: sale 0 of 300, of which 100 is paid, and
   * sale 1 of 500. Cancelling sale 0 as written takes 300 off the debt though only 200
   * was outstanding: the debt drops to 400 while the open accounts still add up to 500.
   */
  lemma AsWrittenCancelDesyncs()
    ensures var customers := [Customer(1000, 700)];
            var receivables := [Receivable(0, 0, 300, 100, 200, Parcial, 30), Receivable(1, 0, 500, 0, 500, AccountStatus.Pendiente, 31)];
            var sale := Sale("V20240115-0001", Some(0), 0, 0, Credito, Completada, 300, 0, 300, None, 0);
            var after := ReverseCreditAsWritten(customers, receivables, 0, sale);
            && DebtSynced(customers, receivables)
            && after.0[0].currentDebt == 400
            && CustomerBalance(after.1, 0) == 500
            && !DebtSynced(after.0, after.1)
  {
  }

  /**
   * The reversal as evidently intended: the sale's accounts are written off and the debt
   * is lowered by what was still outstanding on them.
   */
  function ReverseCredit(customers: seq<Customer>, receivables: seq<Receivable>, saleId: Uuid, customerId: Uuid)
    : (r: (seq<Customer>, seq<Receivable>))
    ensures r.1 == WriteOff(receivables, saleId)
    ensures r.0 == LowerDebt(customers, customerId, SaleBalance(receivables, saleId))
  {
    (LowerDebt(customers, customerId, SaleBalance(receivables, saleId)), WriteOff(receivables, saleId))
  }

  /** The intended reversal keeps every customer's debt equal to the customer's outstanding balance. */
  lemma ReverseCreditKeepsSync(customers: seq<Customer>, receivables: seq<Receivable>, saleId: Uuid, customerId: Uuid)
    requires DebtSynced(customers, receivables)
    requires SaleOwnedBy(receivables, saleId, customerId)
    ensures var after := ReverseCredit(customers, receivables, saleId, customerId);
            DebtSynced(after.0, after.1)
  {
    var after := ReverseCredit(customers, receivables, saleId, customerId);
    forall i | 0 <= i < |after.1| ensures after.1[i].balance >= 0 {
    }
    forall c | 0 <= c < |customers| ensures after.0[c].currentDebt == CustomerBalance(after.1, c) {
      WriteOffBalance(receivables, saleId, c);
      SharedBalanceOfOwner(receivables, saleId, customerId, c);
      SharedWithinCustomerBalance(receivables, c, saleId);
    }
  }

  /** On a sale that was never paid into, the two reversals agree. */
  lemma ReversalsAgreeWhenUnpaid(customers: seq<Customer>, receivables: seq<Receivable>, saleId: Uuid, sale: Sale)
    requires sale.customerId.Some?
    requires SaleBalance(receivables, saleId) == sale.total
    ensures ReverseCreditAsWritten(customers, receivables, saleId, sale)
            == ReverseCredit(customers, receivables, saleId, sale.customerId.value)
  {
  }
}
