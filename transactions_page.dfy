/**
 * The transactions page: the list narrowed by type and by a search text,
 * and the income / expense / net figures over everything loaded.
 */
module TransactionsPage {
  import opened Types
  import opened Lists
  import opened Text
  import opened Helpers
  import Dashboard

  datatype TypeFilter = All | IncomeOnly | ExpenseOnly

  /** `t => t.type === filterType`, for a filter other than "all". */
  function OfType(filterType: TypeFilter): Transaction -> bool {
    (t: Transaction) => if filterType.IncomeOnly? then t.kind.Income? else t.kind.Expense?
  }

  /**
   * The search test against the lowercased query: the lowercased title
   * contains it, or the notes are present and their lowercased text does.
   * `lower` is the browser's `toLowerCase`.
   */
  function MatchesQuery(lower: string -> string, query: string): Transaction -> bool {
    (t: Transaction) => Contains(lower(t.title), query) || (t.notes.Some? && Contains(lower(t.notes.value), query))
  }

  /** `filteredTransactions`. */
  function FilteredTransactions(txs: seq<Transaction>, filterType: TypeFilter, searchQuery: string,
                                lower: string -> string): seq<Transaction>
  {
    var byType := if filterType.All? then txs else Filter(txs, OfType(filterType));
    if !TrimsToEmpty(searchQuery) then Filter(byType, MatchesQuery(lower, lower(searchQuery))) else byType
  }

  /**
   * A transaction is listed exactly when it is loaded, has the chosen type
   * (any, for "all"), and, when the search box holds more than white space,
   * matches the lowercased, untrimmed search text.
   */
  lemma FilteredMembers(txs: seq<Transaction>, filterType: TypeFilter, searchQuery: string,
                        lower: string -> string, t: Transaction)
    ensures t in FilteredTransactions(txs, filterType, searchQuery, lower)
            <==> && t in txs
                 && (filterType.IncomeOnly? ==> t.kind.Income?)
                 && (filterType.ExpenseOnly? ==> t.kind.Expense?)
                 && (Blank(searchQuery) || MatchesQuery(lower, lower(searchQuery))(t))
  {
    var byType := if filterType.All? then txs else Filter(txs, OfType(filterType));
    if !filterType.All? {
      FilterMembers(txs, OfType(filterType), t);
    }
    if !Blank(searchQuery) {
      FilterMembers(byType, MatchesQuery(lower, lower(searchQuery)), t);
    }
  }

  /** The listed transactions keep the loaded order; none is added or repeated. */
  lemma FilteredIsSubsequence(txs: seq<Transaction>, filterType: TypeFilter, searchQuery: string,
                              lower: string -> string)
    ensures IsSubsequence(FilteredTransactions(txs, filterType, searchQuery, lower), txs)
  {
    var byType := if filterType.All? then txs else Filter(txs, OfType(filterType));
    if filterType.All? {
      SubsequenceOfItself(txs);
    } else {
      FilterIsSubsequence(txs, OfType(filterType));
    }
    if !TrimsToEmpty(searchQuery) {
      FilterKeepsSubsequence(byType, txs, MatchesQuery(lower, lower(searchQuery)));
    }
  }

  /** With "all" and a blank search box the page lists exactly what was loaded. */
  lemma UnfilteredIsIdentity(txs: seq<Transaction>, searchQuery: string, lower: string -> string)
    requires Blank(searchQuery)
    ensures FilteredTransactions(txs, All, searchQuery, lower) == txs
  {
  }

  /** A transaction matches when the query occurs in its lowercased title or notes. */
  lemma MatchesQueryIffOccurs(lower: string -> string, query: string, t: Transaction)
    ensures MatchesQuery(lower, query)(t)
            <==> (exists i :: OccursAt(lower(t.title), query, i))
                 || (t.notes.Some? && exists i :: OccursAt(lower(t.notes.value), query, i))
  {
    ContainsIffOccurs(lower(t.title), query);
    if t.notes.Some? {
      ContainsIffOccurs(lower(t.notes.value), query);
    }
  }

  datatype Stats = Stats(income: Money, expense: Money, net: Money)

  function IsIncomeKind(t: Transaction): bool { t.kind.Income? }

  function IsExpenseKind(t: Transaction): bool { t.kind.Expense? }

  /**
   * `stats`, over all loaded transactions whatever the filter: income sums
   * income amounts, expense sums the sizes of expense amounts; transfers
   * count in neither.
   */
  function ComputeStats(txs: seq<Transaction>): (r: Stats)
    ensures r.expense >= 0.0
    ensures r.net == r.income - r.expense
  {
    var income := Sum(Filter(txs, IsIncomeKind), AmountOf);
    var expense := Sum(Filter(txs, IsExpenseKind), Dashboard.AbsAmount);
    SumNonNegative(Filter(txs, IsExpenseKind), Dashboard.AbsAmount);
    Stats(income, expense, income - expense)
  }

  /** A transfer, of any amount, changes none of the figures. */
  lemma StatsIgnoreTransfers(txs: seq<Transaction>, tx: Transaction)
    requires tx.kind.Transfer?
    ensures ComputeStats(txs + [tx]) == ComputeStats(txs)
  {
    FilterSnoc(txs, tx, IsIncomeKind);
    FilterSnoc(txs, tx, IsExpenseKind);
    assert Filter(txs, IsIncomeKind) + [] == Filter(txs, IsIncomeKind);
    assert Filter(txs, IsExpenseKind) + [] == Filter(txs, IsExpenseKind);
  }

  function NotTransfer(t: Transaction): bool { !t.kind.Transfer? }

  /**
   * Under the form's sign rule, the net figure is the balance
   * calculateWalletBalance gives for the loaded transactions other than transfers.
   */
  lemma NetIsBalanceWithoutTransfers(txs: seq<Transaction>)
    requires forall t :: t in txs ==> SignAgrees(t)
    ensures ComputeStats(txs).net == CalculateWalletBalance(Filter(txs, NotTransfer))
  {
    WalletBalanceIsAmountSum(Filter(txs, NotTransfer));
    NetIsNonTransferSum(txs);
  }

  lemma {:induction false} NetIsNonTransferSum(txs: seq<Transaction>)
    requires forall t :: t in txs ==> SignAgrees(t)
    ensures ComputeStats(txs).net == Sum(Filter(txs, NotTransfer), AmountOf)
  {
    if txs != [] {
      assert SignAgrees(txs[0]);
      NetIsNonTransferSum(txs[1..]);
      SumFilterStep(txs, IsIncomeKind, AmountOf);
      SumFilterStep(txs, IsExpenseKind, Dashboard.AbsAmount);
      SumFilterStep(txs, NotTransfer, AmountOf);
    }
  }

  function PositiveTransfer(t: Transaction): bool { t.kind.Transfer? && t.amount > 0.0 }

  function NegativeTransfer(t: Transaction): bool { t.kind.Transfer? && t.amount < 0.0 }

  /**
   * The dashboard's totals are this page's, plus the transfers: incoming
   * transfers count as income there, outgoing ones as expense.
   */
  lemma {:induction false} DashboardAddsTransfers(txs: seq<Transaction>)
    ensures Dashboard.Income(txs) == ComputeStats(txs).income + Sum(Filter(txs, PositiveTransfer), AmountOf)
    ensures Dashboard.Expense(txs) == ComputeStats(txs).expense + Sum(Filter(txs, NegativeTransfer), Dashboard.AbsAmount)
  {
    if txs != [] {
      DashboardAddsTransfers(txs[1..]);
      SumFilterStep(txs, Dashboard.CountsAsIncome, AmountOf);
      SumFilterStep(txs, Dashboard.CountsAsExpense, Dashboard.AbsAmount);
      SumFilterStep(txs, IsIncomeKind, AmountOf);
      SumFilterStep(txs, IsExpenseKind, Dashboard.AbsAmount);
      SumFilterStep(txs, PositiveTransfer, AmountOf);
      SumFilterStep(txs, NegativeTransfer, Dashboard.AbsAmount);
    }
  }
}
