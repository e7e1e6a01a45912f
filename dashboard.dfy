/**
 * The dashboard's income and expense totals and its list of recent
 * transactions. The totals run over every loaded transaction of the
 * account, whatever its date, although the section is headed "This Month".
 */
module Dashboard {
  import opened Types
  import opened Lists
  import opened Sorting
  import opened Helpers
  import TransactionItem

  /** The income filter: an income, or a transfer with a positive amount. */
  predicate CountsAsIncome(tx: Transaction) {
    tx.kind.Income? || (tx.kind.Transfer? && tx.amount > 0.0)
  }

  /** The expense filter: an expense, or a transfer with a negative amount. */
  predicate CountsAsExpense(tx: Transaction) {
    tx.kind.Expense? || (tx.kind.Transfer? && tx.amount < 0.0)
  }

  function AbsAmount(tx: Transaction): Money {
    Abs(tx.amount)
  }

  /** `income`: the amounts of the income-filtered transactions, summed. */
  function Income(txs: seq<Transaction>): Money {
    Sum(Filter(txs, CountsAsIncome), AmountOf)
  }

  /** `expense`: the sizes of the expense-filtered transactions, summed. */
  function Expense(txs: seq<Transaction>): (r: Money)
    ensures r >= 0.0
  {
    SumNonNegative(Filter(txs, CountsAsExpense), AbsAmount);
    Sum(Filter(txs, CountsAsExpense), AbsAmount)
  }

  /** The dashboard's filters are the classification the transaction list shows. */
  lemma FiltersMatchListClasses(tx: Transaction)
    ensures CountsAsIncome(tx) <==> TransactionItem.IsIncome(tx)
    ensures CountsAsExpense(tx) <==> TransactionItem.IsExpense(tx)
  {
  }

  /**
   * Each loaded transaction enters the totals by its type and amount
   * alone: its date plays no part, so the totals are not limited to the
   * current month.
   */
  lemma TotalsIncludeEveryDate(txs: seq<Transaction>, tx: Transaction)
    ensures Income(txs + [tx]) == Income(txs) + (if CountsAsIncome(tx) then tx.amount else 0.0)
    ensures Expense(txs + [tx]) == Expense(txs) + (if CountsAsExpense(tx) then Abs(tx.amount) else 0.0)
  {
    FilterSnoc(txs, tx, CountsAsIncome);
    FilterSnoc(txs, tx, CountsAsExpense);
    SumAppend(Filter(txs, CountsAsIncome), if CountsAsIncome(tx) then [tx] else [], AmountOf);
    SumAppend(Filter(txs, CountsAsExpense), if CountsAsExpense(tx) then [tx] else [], AbsAmount);
  }

  /** A transfer of zero changes neither total. */
  lemma ZeroTransferIgnored(txs: seq<Transaction>, tx: Transaction)
    requires tx.kind.Transfer? && tx.amount == 0.0
    ensures Income(txs + [tx]) == Income(txs)
    ensures Expense(txs + [tx]) == Expense(txs)
  {
    FilterSnoc(txs, tx, CountsAsIncome);
    FilterSnoc(txs, tx, CountsAsExpense);
    assert Filter(txs, CountsAsIncome) + [] == Filter(txs, CountsAsIncome);
    assert Filter(txs, CountsAsExpense) + [] == Filter(txs, CountsAsExpense);
  }

  /**
   * When every amount follows the form's sign rule, income minus expense
   * is the balance calculateWalletBalance gives for the same transactions.
   */
  lemma {:induction false} NetIsWalletBalance(txs: seq<Transaction>)
    requires forall tx :: tx in txs ==> SignAgrees(tx)
    ensures Income(txs) - Expense(txs) == CalculateWalletBalance(txs)
  {
    WalletBalanceIsAmountSum(txs);
    NetIsAmountSum(txs);
  }

  lemma {:induction false} NetIsAmountSum(txs: seq<Transaction>)
    requires forall tx :: tx in txs ==> SignAgrees(tx)
    ensures Income(txs) - Expense(txs) == Sum(txs, AmountOf)
  {
    if txs != [] {
      var tx := txs[0];
      assert SignAgrees(tx);
      NetIsAmountSum(txs[1..]);
      SumFilterStep(txs, CountsAsIncome, AmountOf);
      SumFilterStep(txs, CountsAsExpense, AbsAmount);
    }
  }

  /** `transactions.slice(0, 5)`. */
  function Recent(txs: seq<Transaction>): (r: seq<Transaction>)
    ensures |r| == if |txs| < 5 then |txs| else 5
    ensures r <= txs
  {
    if |txs| < 5 then txs else txs[..5]
  }

  /** With the list newest first, nothing left out of the recent five is newer than any of them. */
  lemma RecentAreNewest(txs: seq<Transaction>)
    requires Sorted(txs, DateDescending)
    ensures forall i, j :: 0 <= i < |Recent(txs)| <= j < |txs| ==> Recent(txs)[i].date >= txs[j].date
  {
  }
}
