/**
 * The entity store: a `Database` object over five IndexedDB object stores,
 * each keyed by the record's `id`. Requests that the browser runs
 * asynchronously are modelled as method calls that either complete or fail.
 *
 * Following section 5.1 of the W3C Indexed Database API 3.0, `add` refuses
 * a key that is already present (a "ConstraintError"), `put` stores with
 * overwrite, `delete` of an absent key succeeds, and an index `getAll`
 * returns the records whose indexed field equals the query. A date range
 * made with `IDBKeyRange.bound(lower, upper)` (section 2.9) is closed at
 * both ends and cannot be made when lower > upper (a "DataError").
 */
module Store {
  import opened Types

  datatype StoreError =
    | NotInitialized   // ensureDb: the database handle is still null
    | OpenFailed       // initialize: the open request failed
    | ConstraintError  // add: a record with that key already exists
    | DataError        // IDBKeyRange.bound: lower bound above upper bound

  datatype StoreName = Accounts | Wallets | Categories | Transactions | Transfers

  /** Every record is stored under its own key path value. */
  ghost predicate KeyedBy<T>(m: map<string, T>, key: T -> string) {
    forall k :: k in m ==> key(m[k]) == k
  }

  /** No two records of a query result share a key. */
  predicate UniqueKeys<T>(s: seq<T>, key: T -> string) {
    forall i, j :: 0 <= i < j < |s| ==> key(s[i]) != key(s[j])
  }

  /**
   * Walks a store's records and keeps those `keep` accepts. The order of
   * the walk is left open.
   */
  method Collect<T(==,!new)>(m: map<string, T>, key: T -> string, keep: T -> bool) returns (out: seq<T>)
    requires KeyedBy(m, key)
    ensures forall x :: x in out <==> x in m.Values && keep(x)
    ensures UniqueKeys(out, key)
  {
    out := [];
    var todo := m.Keys;
    while todo != {}
      invariant todo <= m.Keys
      invariant forall x :: x in out <==> x in m.Values && key(x) !in todo && keep(x)
      invariant forall i :: 0 <= i < |out| ==> key(out[i]) !in todo
      invariant UniqueKeys(out, key)
      decreases todo
    {
      var k :| k in todo;
      if keep(m[k]) {
        out := out + [m[k]];
      }
      todo := todo - {k};
    }
  }

  class Database {
    /** Whether `initialize` has set the database handle. */
    var initialized: bool
    var accounts: map<string, Account>
    var wallets: map<string, Wallet>
    var categories: map<string, Category>
    var transactions: map<string, Transaction>
    var transfers: map<string, Transfer>

    ghost predicate Valid()
      reads this
    {
      && KeyedBy(accounts, AccountKey)
      && KeyedBy(wallets, WalletKey)
      && KeyedBy(categories, CategoryKey)
      && KeyedBy(transactions, TransactionKey)
      && KeyedBy(transfers, TransferKey)
    }

    /** `new Database()`: no handle yet; the first upgrade creates empty stores. */
    constructor ()
      ensures Valid() && !initialized
      ensures accounts == map[] && wallets == map[] && categories == map[]
      ensures transactions == map[] && transfers == map[]
    {
      initialized := false;
      accounts, wallets, categories := map[], map[], map[];
      transactions, transfers := map[], map[];
    }

    /** `initialize`: `openSucceeded` is whether the browser's open request succeeded. */
    method Initialize(openSucceeded: bool) returns (r: Outcome<StoreError>)
      modifies this`initialized
      ensures r == (if openSucceeded then Pass else Fail(OpenFailed))
      ensures initialized == (old(initialized) || openSucceeded)
    {
      if openSucceeded {
        initialized := true;
        r := Pass;
      } else {
        r := Fail(OpenFailed);
      }
    }

    // ---- accounts ----

    method AddAccount(a: Account) returns (r: Outcome<StoreError>)
      requires Valid()
      modifies this`accounts
      ensures Valid()
      ensures !initialized ==> r == Fail(NotInitialized)
      ensures initialized && a.id in old(accounts) ==> r == Fail(ConstraintError)
      ensures initialized && a.id !in old(accounts) ==> r == Pass
      ensures accounts == if r.Pass? then old(accounts)[a.id := a] else old(accounts)
    {
      if !initialized {
        return Fail(NotInitialized);
      }
      if a.id in accounts {
        return Fail(ConstraintError);
      }
      accounts := accounts[a.id := a];
      r := Pass;
    }

    method UpdateAccount(a: Account) returns (r: Outcome<StoreError>)
      requires Valid()
      modifies this`accounts
      ensures Valid()
      ensures r == if initialized then Pass else Fail(NotInitialized)
      ensures accounts == if initialized then old(accounts)[a.id := a] else old(accounts)
    {
      if !initialized {
        return Fail(NotInitialized);
      }
      accounts := accounts[a.id := a];
      r := Pass;
    }

    method DeleteAccount(id: string) returns (r: Outcome<StoreError>)
      requires Valid()
      modifies this`accounts
      ensures Valid()
      ensures r == if initialized then Pass else Fail(NotInitialized)
      ensures accounts == if initialized then old(accounts) - {id} else old(accounts)
    {
      if !initialized {
        return Fail(NotInitialized);
      }
      accounts := accounts - {id};
      r := Pass;
    }

    method GetAccount(id: string) returns (r: Result<Option<Account>, StoreError>)
      requires Valid()
      ensures !initialized ==> r == Err(NotInitialized)
      ensures initialized ==> r.Ok? && (r.value.Some? <==> id in accounts)
      ensures initialized && id in accounts ==> r.value.value == accounts[id] && r.value.value.id == id
    {
      if !initialized {
        return Err(NotInitialized);
      }
      r := Ok(if id in accounts then Some(accounts[id]) else None);
    }

    method GetAllAccounts() returns (r: Result<seq<Account>, StoreError>)
      requires Valid()
      ensures !initialized ==> r == Err(NotInitialized)
      ensures initialized ==> r.Ok? && UniqueKeys(r.value, AccountKey)
                              && forall a :: a in r.value <==> a in accounts.Values
    {
      if !initialized {
        return Err(NotInitialized);
      }
      var all := Collect(accounts, AccountKey, (a: Account) => true);
      r := Ok(all);
    }

    // ---- wallets ----

    method AddWallet(w: Wallet) returns (r: Outcome<StoreError>)
      requires Valid()
      modifies this`wallets
      ensures Valid()
      ensures !initialized ==> r == Fail(NotInitialized)
      ensures initialized && w.id in old(wallets) ==> r == Fail(ConstraintError)
      ensures initialized && w.id !in old(wallets) ==> r == Pass
      ensures wallets == if r.Pass? then old(wallets)[w.id := w] else old(wallets)
    {
      if !initialized {
        return Fail(NotInitialized);
      }
      if w.id in wallets {
        return Fail(ConstraintError);
      }
      wallets := wallets[w.id := w];
      r := Pass;
    }

    method UpdateWallet(w: Wallet) returns (r: Outcome<StoreError>)
      requires Valid()
      modifies this`wallets
      ensures Valid()
      ensures r == if initialized then Pass else Fail(NotInitialized)
      ensures wallets == if initialized then old(wallets)[w.id := w] else old(wallets)
    {
      if !initialized {
        return Fail(NotInitialized);
      }
      wallets := wallets[w.id := w];
      r := Pass;
    }

    method DeleteWallet(id: string) returns (r: Outcome<StoreError>)
      requires Valid()
      modifies this`wallets
      ensures Valid()
      ensures r == if initialized then Pass else Fail(NotInitialized)
      ensures wallets == if initialized then old(wallets) - {id} else old(wallets)
    {
      if !initialized {
        return Fail(NotInitialized);
      }
      wallets := wallets - {id};
      r := Pass;
    }

    method GetWalletsByAccount(accountId: string) returns (r: Result<seq<Wallet>, StoreError>)
      requires Valid()
      ensures !initialized ==> r == Err(NotInitialized)
      ensures initialized ==> r.Ok? && UniqueKeys(r.value, WalletKey)
                              && forall w :: w in r.value <==> w in wallets.Values && w.accountId == accountId
    {
      if !initialized {
        return Err(NotInitialized);
      }
      var found := Collect(wallets, WalletKey, (w: Wallet) => w.accountId == accountId);
      r := Ok(found);
    }

    // ---- categories ----

    method AddCategory(c: Category) returns (r: Outcome<StoreError>)
      requires Valid()
      modifies this`categories
      ensures Valid()
      ensures !initialized ==> r == Fail(NotInitialized)
      ensures initialized && c.id in old(categories) ==> r == Fail(ConstraintError)
      ensures initialized && c.id !in old(categories) ==> r == Pass
      ensures categories == if r.Pass? then old(categories)[c.id := c] else old(categories)
    {
      if !initialized {
        return Fail(NotInitialized);
      }
      if c.id in categories {
        return Fail(ConstraintError);
      }
      categories := categories[c.id := c];
      r := Pass;
    }

    method UpdateCategory(c: Category) returns (r: Outcome<StoreError>)
      requires Valid()
      modifies this`categories
      ensures Valid()
      ensures r == if initialized then Pass else Fail(NotInitialized)
      ensures categories == if initialized then old(categories)[c.id := c] else old(categories)
    {
      if !initialized {
        return Fail(NotInitialized);
      }
      categories := categories[c.id := c];
      r := Pass;
    }

    method DeleteCategory(id: string) returns (r: Outcome<StoreError>)
      requires Valid()
      modifies this`categories
      ensures Valid()
      ensures r == if initialized then Pass else Fail(NotInitialized)
      ensures categories == if initialized then old(categories) - {id} else old(categories)
    {
      if !initialized {
        return Fail(NotInitialized);
      }
      categories := categories - {id};
      r := Pass;
    }

    method GetCategoriesByAccount(accountId: string) returns (r: Result<seq<Category>, StoreError>)
      requires Valid()
      ensures !initialized ==> r == Err(NotInitialized)
      ensures initialized ==> r.Ok? && UniqueKeys(r.value, CategoryKey)
                              && forall c :: c in r.value <==> c in categories.Values && c.accountId == accountId
    {
      if !initialized {
        return Err(NotInitialized);
      }
      var found := Collect(categories, CategoryKey, (c: Category) => c.accountId == accountId);
      r := Ok(found);
    }

    // ---- transactions: these write the transactions store only ----

    method AddTransaction(t: Transaction) returns (r: Outcome<StoreError>)
      requires Valid()
      modifies this`transactions
      ensures Valid()
      ensures !initialized ==> r == Fail(NotInitialized)
      ensures initialized && t.id in old(transactions) ==> r == Fail(ConstraintError)
      ensures initialized && t.id !in old(transactions) ==> r == Pass
      ensures transactions == if r.Pass? then old(transactions)[t.id := t] else old(transactions)
      ensures wallets == old(wallets)
    {
      if !initialized {
        return Fail(NotInitialized);
      }
      if t.id in transactions {
        return Fail(ConstraintError);
      }
      transactions := transactions[t.id := t];
      r := Pass;
    }

    method UpdateTransaction(t: Transaction) returns (r: Outcome<StoreError>)
      requires Valid()
      modifies this`transactions
      ensures Valid()
      ensures r == if initialized then Pass else Fail(NotInitialized)
      ensures transactions == if initialized then old(transactions)[t.id := t] else old(transactions)
      ensures wallets == old(wallets)
    {
      if !initialized {
        return Fail(NotInitialized);
      }
      transactions := transactions[t.id := t];
      r := Pass;
    }

    method DeleteTransaction(id: string) returns (r: Outcome<StoreError>)
      requires Valid()
      modifies this`transactions
      ensures Valid()
      ensures r == if initialized then Pass else Fail(NotInitialized)
      ensures transactions == if initialized then old(transactions) - {id} else old(transactions)
      ensures wallets == old(wallets)
    {
      if !initialized {
        return Fail(NotInitialized);
      }
      transactions := transactions - {id};
      r := Pass;
    }

    method GetTransactionsByWallet(walletId: string) returns (r: Result<seq<Transaction>, StoreError>)
      requires Valid()
      ensures !initialized ==> r == Err(NotInitialized)
      ensures initialized ==> r.Ok? && UniqueKeys(r.value, TransactionKey)
                              && forall t :: t in r.value <==> t in transactions.Values && t.walletId == walletId
    {
      if !initialized {
        return Err(NotInitialized);
      }
      var found := Collect(transactions, TransactionKey, (t: Transaction) => t.walletId == walletId);
      r := Ok(found);
    }

    method GetTransactionsByAccount(accountId: string) returns (r: Result<seq<Transaction>, StoreError>)
      requires Valid()
      ensures !initialized ==> r == Err(NotInitialized)
      ensures initialized ==> r.Ok? && UniqueKeys(r.value, TransactionKey)
                              && forall t :: t in r.value <==> t in transactions.Values && t.accountId == accountId
    {
      if !initialized {
        return Err(NotInitialized);
      }
      var found := Collect(transactions, TransactionKey, (t: Transaction) => t.accountId == accountId);
      r := Ok(found);
    }

    /** The closed range [startDate, endDate] over the `date` index. */
    method GetTransactionsByDate(startDate: Timestamp, endDate: Timestamp) returns (r: Result<seq<Transaction>, StoreError>)
      requires Valid()
      ensures !initialized ==> r == Err(NotInitialized)
      ensures initialized && startDate > endDate ==> r == Err(DataError)
      ensures initialized && startDate <= endDate ==>
                r.Ok? && UniqueKeys(r.value, TransactionKey)
                && forall t :: t in r.value <==> t in transactions.Values && startDate <= t.date <= endDate
    {
      if !initialized {
        return Err(NotInitialized);
      }
      if startDate > endDate {
        return Err(DataError);
      }
      var found := Collect(transactions, TransactionKey, (t: Transaction) => startDate <= t.date <= endDate);
      r := Ok(found);
    }

    // ---- transfers ----

    method AddTransfer(t: Transfer) returns (r: Outcome<StoreError>)
      requires Valid()
      modifies this`transfers
      ensures Valid()
      ensures !initialized ==> r == Fail(NotInitialized)
      ensures initialized && t.id in old(transfers) ==> r == Fail(ConstraintError)
      ensures initialized && t.id !in old(transfers) ==> r == Pass
      ensures transfers == if r.Pass? then old(transfers)[t.id := t] else old(transfers)
      ensures wallets == old(wallets) && transactions == old(transactions)
    {
      if !initialized {
        return Fail(NotInitialized);
      }
      if t.id in transfers {
        return Fail(ConstraintError);
      }
      transfers := transfers[t.id := t];
      r := Pass;
    }

    /** Indexed on `sourceAccountId` only: transfers into the account are not returned. */
    method GetTransfersByAccount(accountId: string) returns (r: Result<seq<Transfer>, StoreError>)
      requires Valid()
      ensures !initialized ==> r == Err(NotInitialized)
      ensures initialized ==> r.Ok? && UniqueKeys(r.value, TransferKey)
                              && forall t :: t in r.value <==> t in transfers.Values && t.sourceAccountId == accountId
    {
      if !initialized {
        return Err(NotInitialized);
      }
      var found := Collect(transfers, TransferKey, (t: Transfer) => t.sourceAccountId == accountId);
      r := Ok(found);
    }

    // ---- clearAll ----

    predicate IsEmpty(name: StoreName)
      reads this
    {
      match name
      case Accounts => accounts == map[]
      case Wallets => wallets == map[]
      case Categories => categories == map[]
      case Transactions => transactions == map[]
      case Transfers => transfers == map[]
    }

    /** `objectStore(name).clear()` inside the clearAll transaction. */
    method Clear(name: StoreName)
      requires Valid()
      modifies this`accounts, this`wallets, this`categories, this`transactions, this`transfers
      ensures Valid() && IsEmpty(name)
      ensures name != Accounts ==> accounts == old(accounts)
      ensures name != Wallets ==> wallets == old(wallets)
      ensures name != Categories ==> categories == old(categories)
      ensures name != Transactions ==> transactions == old(transactions)
      ensures name != Transfers ==> transfers == old(transfers)
    {
      match name
      case Accounts => accounts := map[];
      case Wallets => wallets := map[];
      case Categories => categories := map[];
      case Transactions => transactions := map[];
      case Transfers => transfers := map[];
    }

    method ClearAll() returns (r: Outcome<StoreError>)
      requires Valid()
      modifies this`accounts, this`wallets, this`categories, this`transactions, this`transfers
      ensures Valid()
      ensures r == if initialized then Pass else Fail(NotInitialized)
      ensures !initialized ==> accounts == old(accounts) && wallets == old(wallets)
                               && categories == old(categories) && transactions == old(transactions)
                               && transfers == old(transfers)
      ensures initialized ==> accounts == map[] && wallets == map[] && categories == map[]
                              && transactions == map[] && transfers == map[]
    {
      if !initialized {
        return Fail(NotInitialized);
      }
      var stores := [Accounts, Wallets, Categories, Transactions, Transfers];
      var completed := 0;
      while completed < |stores|
        invariant 0 <= completed <= |stores|
        invariant Valid()
        invariant forall n :: n in stores[..completed] ==> IsEmpty(n)
      {
        Clear(stores[completed]);
        assert stores[..completed + 1] == stores[..completed] + [stores[completed]];
        completed := completed + 1;
      }
      assert stores[..completed] == stores;
      assert IsEmpty(Accounts) && IsEmpty(Wallets) && IsEmpty(Categories);
      assert IsEmpty(Transactions) && IsEmpty(Transfers);
      r := Pass;
    }
  }
}
