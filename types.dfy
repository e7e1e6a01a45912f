/**
 * Record shapes of the expense tracker's five object stores (accounts,
 * wallets, categories, transactions, transfers), and the small wrapper
 * types every other module uses.
 */
module Types {

  /** A JavaScript `Date`, as milliseconds since the Unix epoch. */
  type Timestamp = int

  /** An amount of money as the form parses it: a decimal number. */
  type Money = real

  /** Length of a day in milliseconds, as `isYesterday` and ISO dates use it. */
  const DayMillis: int := 86400000

  datatype Option<+T> = None | Some(value: T) {
    /** `x || fallback` for an optional field: the value when present. */
    function GetOr(fallback: T): T {
      match this
      case Some(v) => v
      case None => fallback
    }
  }

  datatype Result<+T, +E> = Ok(value: T) | Err(error: E)

  datatype Outcome<+E> = Pass | Fail(error: E)

  datatype WalletType = Cash | Bank | Card | Custom

  datatype CategoryType = IncomeCategory | ExpenseCategory | NeutralCategory

  /** The `type` of a transaction. */
  datatype TxType = Income | Expense | Transfer

  datatype Account = Account(
    id: string,
    name: string,
    description: Option<string>,
    color: Option<string>,
    icon: Option<string>,
    createdAt: Timestamp,
    balance: Money)

  datatype Wallet = Wallet(
    id: string,
    accountId: string,
    name: string,
    kind: WalletType,
    balance: Money,
    createdAt: Timestamp)

  datatype Category = Category(
    id: string,
    accountId: string,
    name: string,
    kind: CategoryType,
    color: Option<string>,
    icon: Option<string>,
    createdAt: Timestamp)

  datatype Transaction = Transaction(
    id: string,
    accountId: string,
    walletId: string,
    kind: TxType,
    title: string,
    amount: Money,
    date: Timestamp,
    categoryId: Option<string>,
    notes: Option<string>,
    transferId: Option<string>,
    createdAt: Timestamp)

  datatype Transfer = Transfer(
    id: string,
    sourceAccountId: string,
    sourceWalletId: string,
    targetAccountId: string,
    targetWalletId: string,
    amount: Money,
    date: Timestamp,
    sourceTransactionId: string,
    targetTransactionId: string,
    notes: Option<string>,
    createdAt: Timestamp)

  // The key path of every store is `id`.
  function AccountKey(a: Account): string { a.id }
  function WalletKey(w: Wallet): string { w.id }
  function CategoryKey(c: Category): string { c.id }
  function TransactionKey(t: Transaction): string { t.id }
  function TransferKey(t: Transfer): string { t.id }

  function Abs(x: Money): (r: Money)
    ensures r >= 0.0 && (r == x || r == -x)
  {
    if x < 0.0 then -x else x
  }

  /**
   * The sign convention the transaction form establishes: an expense is
   * stored as a non-positive amount, an income as a non-negative one; a
   * transfer's sign is its direction.
   */
  predicate SignAgrees(t: Transaction) {
    && (t.kind.Income? ==> t.amount >= 0.0)
    && (t.kind.Expense? ==> t.amount <= 0.0)
  }
}
