/**
 * The receivable ledger: payments against a credit sale's account, and the aging
 * report that sorts the open accounts into five overdue buckets.
 */
module Receivables {
  import opened Util
  import opened Schema

  datatype PaymentError =
    | AccountNotFound
    | NonPositiveAmount
    | ExceedsBalance(balance: int)

  datatype PaymentRequest = PaymentRequest(
    amount: int, paymentMethod: Option<string>, reference: Option<string>, notes: Option<string>)

  /** What `registerPayment` returns: the payment row and the account's new balance and status. */
  datatype PaymentReceipt = PaymentReceipt(paymentId: Uuid, payment: Payment, newBalance: int, newStatus: AccountStatus)

  /** The payment method recorded: the one given, or EFECTIVO when none (or an empty one) is given. */
  function MethodOrDefault(paymentMethod: Option<string>): (r: string)
    ensures r != []
    ensures paymentMethod.Some? && paymentMethod.value != [] ==> r == paymentMethod.value
    ensures paymentMethod.None? || paymentMethod.value == [] ==> r == "EFECTIVO"
  {
    if paymentMethod.Some? && paymentMethod.value != "" then paymentMethod.value else "EFECTIVO"
  }

  /** The bookkeeping identity of an account: what is outstanding is what was owed minus what was paid. */
  predicate Balanced(account: Receivable) {
    account.balance == account.totalAmount - account.paidAmount
  }

  /**
   * Apply a payment to an account. The amount must be positive and at most the balance;
   * the account then records it as paid and becomes PAGADA when nothing is left, else PARCIAL.
   */
  function Pay(account: Receivable, amount: int): (r: Result<Receivable, PaymentError>)
    ensures r.Ok? <==> 0 < amount <= account.balance
    ensures amount <= 0 ==> r == Err(NonPositiveAmount)
    ensures 0 < amount && account.balance < amount ==> r == Err(ExceedsBalance(account.balance))
    ensures r.Ok? ==>
              && r.value.paidAmount == account.paidAmount + amount
              && r.value.balance == account.balance - amount
              && r.value.balance >= 0
              && (r.value.status == Pagada <==> r.value.balance == 0)
              && (r.value.status != Pagada ==> r.value.status == Parcial)
              && r.value.saleId == account.saleId && r.value.customerId == account.customerId
              && r.value.totalAmount == account.totalAmount && r.value.dueDay == account.dueDay
    ensures r.Ok? && Balanced(account) ==> Balanced(r.value)
  {
    if amount <= 0 then Err(NonPositiveAmount)
    else if amount > account.balance then Err(ExceedsBalance(account.balance))
    else
      var newPaidAmount := account.paidAmount + amount;
      var newBalance := account.balance - amount;
      var newStatus := if newBalance <= 0 then Pagada else Parcial;
      Ok(account.(paidAmount := newPaidAmount, balance := newBalance, status := newStatus))
  }

  /** Paying off an account in several payments leaves it PAGADA exactly when the payments cover the balance. */
  lemma {:induction false} PaymentsSettle(account: Receivable, amounts: seq<int>)
    requires 0 < account.balance
    requires forall i :: 0 <= i < |amounts| ==> 0 < amounts[i]
    requires Sum(amounts) <= account.balance
    ensures var r := PayAll(account, amounts);
            && r.Ok?
            && r.value.balance == account.balance - Sum(amounts)
            && r.value.paidAmount == account.paidAmount + Sum(amounts)
            && (amounts != [] ==> (r.value.status == Pagada <==> Sum(amounts) == account.balance))
    decreases |amounts|
  {
    if amounts != [] {
      var front := amounts[..|amounts| - 1];
      var last := amounts[|amounts| - 1];
      assert Sum(amounts) == Sum(front) + last;
      SumPositive(front);
      PaymentsSettle(account, front);
    }
  }

  /** The sum of a sequence of amounts, from the left. */
  function Sum(amounts: seq<int>): int
    decreases |amounts|
  {
    if amounts == [] then 0 else Sum(amounts[..|amounts| - 1]) + amounts[|amounts| - 1]
  }

  lemma {:induction false} SumPositive(amounts: seq<int>)
    requires forall i :: 0 <= i < |amounts| ==> 0 < amounts[i]
    ensures Sum(amounts) >= 0
    ensures amounts != [] ==> Sum(amounts) > 0
    decreases |amounts|
  {
    if amounts != [] {
      SumPositive(amounts[..|amounts| - 1]);
    }
  }

  /** A sequence of payments registered one after another against the same account. */
  function PayAll(account: Receivable, amounts: seq<int>): Result<Receivable, PaymentError>
    decreases |amounts|
  {
    if amounts == [] then Ok(account)
    else match PayAll(account, amounts[..|amounts| - 1])
      case Err(e) => Err(e)
      case Ok(a) => Pay(a, amounts[|amounts| - 1])
  }

  // ---------------------------------------------------------------------------
  // Aging report
  // ---------------------------------------------------------------------------

  datatype Bucket = Current | Days1To30 | Days31To60 | Days61To90 | Over90

  /** Whole days past the due day, 0 for an account not yet due. */
  function DaysOverdue(account: Receivable, today: int): (days: nat)
    ensures days == 0 <==> today <= account.dueDay
    ensures days > 0 ==> days == today - account.dueDay
  {
    Max(today - account.dueDay, 0)
  }

  /** The accounts the report considers: PENDIENTE, PARCIAL or VENCIDA. */
  predicate IsOpen(account: Receivable) {
    account.status == AccountStatus.Pendiente || account.status == Parcial || account.status == Vencida
  }

  /** The five bucket conditions, each written as the report writes it. */
  predicate InBucket(b: Bucket, days: int) {
    match b
    case Current => days == 0
    case Days1To30 => days > 0 && days <= 30
    case Days31To60 => days > 30 && days <= 60
    case Days61To90 => days > 60 && days <= 90
    case Over90 => days > 90
  }

  /** The single bucket a number of overdue days falls into. */
  function BucketOf(days: nat): (b: Bucket)
    ensures InBucket(b, days)
    ensures forall other: Bucket :: InBucket(other, days) ==> other == b
  {
    if days == 0 then Current
    else if days <= 30 then Days1To30
    else if days <= 60 then Days31To60
    else if days <= 90 then Days61To90
    else Over90
  }

  function OpenAccounts(receivables: seq<Receivable>): (r: seq<Receivable>)
    ensures forall a :: a in r <==> a in receivables && IsOpen(a)
    ensures forall a :: multiset(r)[a] == if IsOpen(a) then multiset(receivables)[a] else 0
    ensures |r| <= |receivables|
    decreases |receivables|
  {
    if receivables == [] then []
    else
      assert receivables == [receivables[0]] + receivables[1..];
      (if IsOpen(receivables[0]) then [receivables[0]] else []) + OpenAccounts(receivables[1..])
  }

  function InBucketOf(accounts: seq<Receivable>, b: Bucket, today: int): (r: seq<Receivable>)
    ensures forall a :: a in r <==> a in accounts && InBucket(b, DaysOverdue(a, today))
    ensures forall a :: multiset(r)[a] == if InBucket(b, DaysOverdue(a, today)) then multiset(accounts)[a] else 0
    decreases |accounts|
  {
    if accounts == [] then []
    else
      assert accounts == [accounts[0]] + accounts[1..];
      (if InBucket(b, DaysOverdue(accounts[0], today)) then [accounts[0]] else []) + InBucketOf(accounts[1..], b, today)
  }

  /** Σ balance over the accounts. */
  function SumBalance(accounts: seq<Receivable>): int
    decreases |accounts|
  {
    if accounts == [] then 0 else accounts[0].balance + SumBalance(accounts[1..])
  }

  lemma {:induction false} SumBalanceAppend(a: seq<Receivable>, b: seq<Receivable>)
    ensures SumBalance(a + b) == SumBalance(a) + SumBalance(b)
    decreases |a|
  {
    if a == [] {
      assert a + b == b;
    } else {
      assert (a + b)[0] == a[0] && (a + b)[1..] == a[1..] + b;
      SumBalanceAppend(a[1..], b);
    }
  }

  /**
   * The five buckets split the accounts: the counts add up to the number of accounts and
   * the bucket totals add up to their total balance.
   */
  lemma {:induction false} BucketsPartition(accounts: seq<Receivable>, today: int)
    ensures |InBucketOf(accounts, Current, today)| + |InBucketOf(accounts, Days1To30, today)|
            + |InBucketOf(accounts, Days31To60, today)| + |InBucketOf(accounts, Days61To90, today)|
            + |InBucketOf(accounts, Over90, today)| == |accounts|
    ensures SumBalance(InBucketOf(accounts, Current, today)) + SumBalance(InBucketOf(accounts, Days1To30, today))
            + SumBalance(InBucketOf(accounts, Days31To60, today)) + SumBalance(InBucketOf(accounts, Days61To90, today))
            + SumBalance(InBucketOf(accounts, Over90, today)) == SumBalance(accounts)
    decreases |accounts|
  {
    if accounts != [] {
      BucketsPartition(accounts[1..], today);
      InBucketOfStep(accounts, Current, today);
      InBucketOfStep(accounts, Days1To30, today);
      InBucketOfStep(accounts, Days31To60, today);
      InBucketOfStep(accounts, Days61To90, today);
      InBucketOfStep(accounts, Over90, today);
    }
  }

  /** The first account adds one to the count and its balance to the total of its own bucket only. */
  lemma InBucketOfStep(accounts: seq<Receivable>, other: Bucket, today: int)
    requires accounts != []
    ensures var mine := other == BucketOf(DaysOverdue(accounts[0], today));
            && |InBucketOf(accounts, other, today)| == (if mine then 1 else 0) + |InBucketOf(accounts[1..], other, today)|
            && SumBalance(InBucketOf(accounts, other, today))
               == (if mine then accounts[0].balance else 0) + SumBalance(InBucketOf(accounts[1..], other, today))
  {
    var a := accounts[0];
    var head := if other == BucketOf(DaysOverdue(a, today)) then [a] else [];
    assert InBucketOf(accounts, other, today) == head + InBucketOf(accounts[1..], other, today);
    SumBalanceAppend(head, InBucketOf(accounts[1..], other, today));
  }

  datatype BucketSummary = BucketSummary(count: nat, total: int)

  datatype AgingReport = AgingReport(
    current: BucketSummary, days1To30: BucketSummary, days31To60: BucketSummary,
    days61To90: BucketSummary, over90: BucketSummary, totalPending: int, accounts: seq<Receivable>)

  function Summary(accounts: seq<Receivable>, b: Bucket, today: int): BucketSummary {
    var inside := InBucketOf(accounts, b, today);
    BucketSummary(|inside|, SumBalance(inside))
  }

  /**
   * The aging report over the receivable table as of `today`: the open accounts, a count
   * and balance total per bucket, and the total pending.
   */
  function GetAgingReport(receivables: seq<Receivable>, today: int): (r: AgingReport)
    ensures r.accounts == OpenAccounts(receivables)
    ensures forall a :: a in r.accounts <==> a in receivables && IsOpen(a)
    ensures && r.current == Summary(r.accounts, Current, today)
            && r.days1To30 == Summary(r.accounts, Days1To30, today)
            && r.days31To60 == Summary(r.accounts, Days31To60, today)
            && r.days61To90 == Summary(r.accounts, Days61To90, today)
            && r.over90 == Summary(r.accounts, Over90, today)
    ensures r.current.count + r.days1To30.count + r.days31To60.count + r.days61To90.count + r.over90.count
            == |r.accounts|
    ensures r.current.total + r.days1To30.total + r.days31To60.total + r.days61To90.total + r.over90.total
            == r.totalPending
    ensures r.totalPending == SumBalance(r.accounts)
  {
    var accounts := OpenAccounts(receivables);
    BucketsPartition(accounts, today);
    AgingReport(
      Summary(accounts, Current, today), Summary(accounts, Days1To30, today), Summary(accounts, Days31To60, today),
      Summary(accounts, Days61To90, today), Summary(accounts, Over90, today), SumBalance(accounts), accounts)
  }

  // ---------------------------------------------------------------------------
  // The service
  // ---------------------------------------------------------------------------

  class AccountsReceivableService {
    const db: Database

    constructor (db: Database)
      ensures this.db == db
    {
      this.db := db;
    }

    /**
     * Register a payment against an account. Refused when the account is unknown, the
     * amount is not positive, or it exceeds the balance. Otherwise, in this order: one
     * payment row, the account's paid amount, balance and status, and the customer's debt
     * lowered by the amount, never below 0.
     */
    method RegisterPayment(accountId: Uuid, req: PaymentRequest, userId: Uuid, today: int)
      returns (r: Result<PaymentReceipt, PaymentError>)
      modifies db`payments, db`receivables, db`customers
      ensures accountId >= old(|db.receivables|) ==>
                && r == Err(AccountNotFound)
                && db.payments == old(db.payments) && db.receivables == old(db.receivables) && db.customers == old(db.customers)
      ensures accountId < old(|db.receivables|) && Pay(old(db.receivables[accountId]), req.amount).Err? ==>
                && r == Err(Pay(old(db.receivables[accountId]), req.amount).error)
                && db.payments == old(db.payments) && db.receivables == old(db.receivables) && db.customers == old(db.customers)
      ensures accountId < old(|db.receivables|) && Pay(old(db.receivables[accountId]), req.amount).Ok? ==>
                var account := old(db.receivables[accountId]);
                var updated := Pay(account, req.amount).value;
                var payment := Payment(accountId, req.amount, MethodOrDefault(req.paymentMethod), req.reference, req.notes, userId, today);
                && db.payments == old(db.payments) + [payment]
                && db.receivables == old(db.receivables)[accountId := updated]
                && db.customers == LowerDebt(old(db.customers), account.customerId, req.amount)
                && r == Ok(PaymentReceipt(old(|db.payments|), payment, updated.balance, updated.status))
    {
      if accountId >= |db.receivables| {
        return Err(AccountNotFound);
      }
      var account := db.receivables[accountId];
      var amount := req.amount;
      var currentBalance := account.balance;
      if amount <= 0 {
        return Err(NonPositiveAmount);
      }
      if amount > currentBalance {
        return Err(ExceedsBalance(currentBalance));
      }

      var paymentId := |db.payments|;
      var payment := Payment(accountId, amount, MethodOrDefault(req.paymentMethod), req.reference, req.notes, userId, today);
      db.payments := db.payments + [payment];

      var newPaidAmount := account.paidAmount + amount;
      var newBalance := currentBalance - amount;
      var newStatus := if newBalance <= 0 then Pagada else Parcial;
      db.receivables := db.receivables[accountId := account.(paidAmount := newPaidAmount, balance := newBalance, status := newStatus)];

      db.customers := LowerDebt(db.customers, account.customerId, amount);
      r := Ok(PaymentReceipt(paymentId, payment, newBalance, newStatus));
    }
  }
}
