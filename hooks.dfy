/**
 * The data hooks (useAccounts, useWallets, useCategories, useTransactions):
 * each keeps a cached list of one kind of record next to the store, loads
 * it sorted, and writes through to the store before updating the cache.
 * A failed store request or a missing record is recorded in `error` and
 * returned as an `Err` (the hook rethrows it to its caller).
 *
 * Each hook is a class whose fields are the React state it holds. The
 * `walletBalanceChanged` event that the transactions hook dispatches is
 * counted in `signals`; the listeners in the accounts and wallets hooks
 * respond by calling `LoadAccounts` / `LoadWallets`.
 */
module Hooks {
  import opened Types
  import opened Lists
  import opened Sorting
  import opened Store
  import opened Helpers

  datatype HookError =
    | StoreFailure(cause: StoreError)
    | AccountNotFound
    | WalletNotFound
    | CategoryNotFound
    | TransactionNotFound
    | NoAccountSelected

  /**
   * The `error` text the hook records. For an exception the browser raises
   * (a DOMException), the model keeps its name rather than the browser's text.
   */
  function Message(e: HookError): string {
    match e
    case StoreFailure(NotInitialized) => "Database not initialized"
    case StoreFailure(OpenFailed) => "Failed to open IndexedDB"
    case StoreFailure(ConstraintError) => "ConstraintError"
    case StoreFailure(DataError) => "DataError"
    case AccountNotFound => "Account not found"
    case WalletNotFound => "Wallet not found"
    case CategoryNotFound => "Category not found"
    case TransactionNotFound => "Transaction not found"
    case NoAccountSelected => "No account selected"
  }

  /** The recorded text tells the errors apart: no two kinds of failure share a message. */
  lemma MessageIdentifiesError(a: HookError, b: HookError)
    ensures Message(a) == Message(b) <==> a == b
  {
  }

  /** `!accountId` is false: an id is present and is not the empty string. */
  predicate Selected(accountId: Option<string>) {
    accountId.Some? && accountId.value != ""
  }

  // ---- the cached list against its store ----

  /** Every cached record is the one the store holds under its key. */
  ghost predicate CachedIn<T>(s: seq<T>, m: map<string, T>, key: T -> string) {
    forall x :: x in s ==> key(x) in m && m[key(x)] == x
  }

  /** A list read from a store mirrors it. */
  lemma CachedFromStore<T>(s: seq<T>, m: map<string, T>, key: T -> string)
    requires KeyedBy(m, key) && forall x :: x in s ==> x in m.Values
    ensures CachedIn(s, m, key)
  {
    forall x | x in s ensures key(x) in m && m[key(x)] == x {
      var k :| k in m && m[k] == x;
    }
  }

  lemma CachedPrepend<T>(x: T, s: seq<T>, m: map<string, T>, key: T -> string)
    requires CachedIn(s, m, key) && key(x) !in m
    ensures CachedIn([x] + s, m[key(x) := x], key)
  {
  }

  lemma CachedAppend<T>(x: T, s: seq<T>, m: map<string, T>, key: T -> string)
    requires CachedIn(s, m, key) && key(x) !in m
    ensures CachedIn(s + [x], m[key(x) := x], key)
  {
  }

  lemma CachedRemove<T(!new)>(s: seq<T>, m: map<string, T>, key: T -> string, id: string)
    requires CachedIn(s, m, key)
    ensures CachedIn(RemoveById(s, key, id), m - {id}, key)
  {
  }

  lemma CachedReplace<T>(s: seq<T>, m: map<string, T>, key: T -> string, id: string, y: T)
    requires CachedIn(s, m, key) && key(y) == id
    ensures CachedIn(ReplaceById(s, key, id, y), m[id := y], key)
  {
    ReplaceByIdMembers(s, key, id, y);
  }

  lemma CachedSort<T>(s: seq<T>, m: map<string, T>, key: T -> string, le: (T, T) -> bool)
    requires CachedIn(s, m, key)
    ensures CachedIn(SortBy(s, le), m, key)
  {
    forall x | x in SortBy(s, le) ensures key(x) in m && m[key(x)] == x {
      assert x in multiset(SortBy(s, le));
      assert x in multiset(s);
    }
  }

  /** In a permutation of `b`, the element at `j` sits at some index other than the one holding `b[i]`. */
  lemma OtherIndex<T>(a: seq<T>, b: seq<T>, i: nat, j: nat, p: nat) returns (q: nat)
    requires multiset(a) == multiset(b) && i < j < |b| && p < |a| && a[p] == b[i]
    ensures q < |a| && q != p && a[q] == b[j]
  {
    MultisetRemoveAt(a, p);
    MultisetRemoveAt(b, i);
    var restA, restB := a[..p] + a[p + 1..], b[..i] + b[i + 1..];
    assert restB[j - 1] == b[j];
    assert multiset(restA) == multiset(restB);
    assert b[j] in multiset(restA);
    var k :| 0 <= k < |restA| && restA[k] == b[j];
    q := if k < p then k else k + 1;
  }

  /** Reordering a list whose keys are distinct keeps them distinct. */
  lemma UniqueKeysPermutation<T>(a: seq<T>, b: seq<T>, key: T -> string)
    requires multiset(a) == multiset(b) && UniqueKeys(a, key)
    ensures UniqueKeys(b, key)
  {
    forall i, j | 0 <= i < j < |b| ensures key(b[i]) != key(b[j]) {
      assert b[i] in multiset(a);
      var p :| 0 <= p < |a| && a[p] == b[i];
      var q := OtherIndex(a, b, i, j, p);
      if p < q {
        assert key(a[p]) != key(a[q]);
      } else {
        assert key(a[q]) != key(a[p]);
      }
    }
  }

  /** A sorted load keeps each stored record once. */
  lemma SortByKeepsUniqueKeys<T>(s: seq<T>, le: (T, T) -> bool, key: T -> string)
    requires UniqueKeys(s, key)
    ensures UniqueKeys(SortBy(s, le), key)
  {
    UniqueKeysPermutation(s, SortBy(s, le), key);
  }

  // ---- Partial<T> updates, merged as `{ ...record, ...updates, createdAt: record.createdAt }` ----
  // A field the caller leaves out is None. An optional field the caller sets,
  // even to `undefined`, is Some(v) with v the new (possibly absent) value.

  datatype AccountPatch = AccountPatch(
    id: Option<string>,
    name: Option<string>,
    description: Option<Option<string>>,
    color: Option<Option<string>>,
    icon: Option<Option<string>>,
    createdAt: Option<Timestamp>,
    balance: Option<Money>)

  datatype WalletPatch = WalletPatch(
    id: Option<string>,
    accountId: Option<string>,
    name: Option<string>,
    kind: Option<WalletType>,
    balance: Option<Money>,
    createdAt: Option<Timestamp>)

  datatype CategoryPatch = CategoryPatch(
    id: Option<string>,
    accountId: Option<string>,
    name: Option<string>,
    kind: Option<CategoryType>,
    color: Option<Option<string>>,
    icon: Option<Option<string>>,
    createdAt: Option<Timestamp>)

  datatype TransactionPatch = TransactionPatch(
    id: Option<string>,
    accountId: Option<string>,
    walletId: Option<string>,
    kind: Option<TxType>,
    title: Option<string>,
    amount: Option<Money>,
    date: Option<Timestamp>,
    categoryId: Option<Option<string>>,
    notes: Option<Option<string>>,
    transferId: Option<Option<string>>,
    createdAt: Option<Timestamp>)

  function MergeAccount(a: Account, p: AccountPatch): (r: Account)
    ensures r.createdAt == a.createdAt
  {
    Account(p.id.GetOr(a.id), p.name.GetOr(a.name), p.description.GetOr(a.description),
            p.color.GetOr(a.color), p.icon.GetOr(a.icon), a.createdAt, p.balance.GetOr(a.balance))
  }

  function MergeWallet(w: Wallet, p: WalletPatch): (r: Wallet)
    ensures r.createdAt == w.createdAt
  {
    Wallet(p.id.GetOr(w.id), p.accountId.GetOr(w.accountId), p.name.GetOr(w.name),
           p.kind.GetOr(w.kind), p.balance.GetOr(w.balance), w.createdAt)
  }

  function MergeCategory(c: Category, p: CategoryPatch): (r: Category)
    ensures r.createdAt == c.createdAt
  {
    Category(p.id.GetOr(c.id), p.accountId.GetOr(c.accountId), p.name.GetOr(c.name),
             p.kind.GetOr(c.kind), p.color.GetOr(c.color), p.icon.GetOr(c.icon), c.createdAt)
  }

  function MergeTransaction(t: Transaction, p: TransactionPatch): (r: Transaction)
    ensures r.createdAt == t.createdAt
  {
    Transaction(p.id.GetOr(t.id), p.accountId.GetOr(t.accountId), p.walletId.GetOr(t.walletId),
                p.kind.GetOr(t.kind), p.title.GetOr(t.title), p.amount.GetOr(t.amount),
                p.date.GetOr(t.date), p.categoryId.GetOr(t.categoryId), p.notes.GetOr(t.notes),
                p.transferId.GetOr(t.transferId), t.createdAt)
  }

  /** Applying the same update twice changes nothing more; a `createdAt` in the update is ignored. */
  lemma MergeAccountIdempotent(a: Account, p: AccountPatch)
    ensures MergeAccount(MergeAccount(a, p), p) == MergeAccount(a, p)
    ensures MergeAccount(a, p.(createdAt := None)) == MergeAccount(a, p)
  {
  }

  lemma MergeWalletIdempotent(w: Wallet, p: WalletPatch)
    ensures MergeWallet(MergeWallet(w, p), p) == MergeWallet(w, p)
    ensures MergeWallet(w, p.(createdAt := None)) == MergeWallet(w, p)
  {
  }

  lemma MergeCategoryIdempotent(c: Category, p: CategoryPatch)
    ensures MergeCategory(MergeCategory(c, p), p) == MergeCategory(c, p)
    ensures MergeCategory(c, p.(createdAt := None)) == MergeCategory(c, p)
  {
  }

  lemma MergeTransactionIdempotent(t: Transaction, p: TransactionPatch)
    ensures MergeTransaction(MergeTransaction(t, p), p) == MergeTransaction(t, p)
    ensures MergeTransaction(t, p.(createdAt := None)) == MergeTransaction(t, p)
  {
  }

  /** The update that sets nothing leaves a transaction as it is. */
  lemma MergeTransactionEmpty(t: Transaction)
    ensures MergeTransaction(t, TransactionPatch(None, None, None, None, None, None, None, None, None, None, None)) == t
  {
  }

  /** `Omit<Transaction, 'id' | 'createdAt'>`: what addTransaction is given. */
  datatype TransactionInput = TransactionInput(
    accountId: string,
    walletId: string,
    kind: TxType,
    title: string,
    amount: Money,
    date: Timestamp,
    categoryId: Option<string>,
    notes: Option<string>,
    transferId: Option<string>)

  /** `{ ...transaction, id: generateId(), createdAt: new Date() }`. */
  function NewTransaction(input: TransactionInput, id: string, now: Timestamp): Transaction {
    Transaction(id, input.accountId, input.walletId, input.kind, input.title, input.amount,
                input.date, input.categoryId, input.notes, input.transferId, now)
  }

  function InputOf(t: Transaction): TransactionInput {
    TransactionInput(t.accountId, t.walletId, t.kind, t.title, t.amount, t.date,
                     t.categoryId, t.notes, t.transferId)
  }

  /** A new transaction carries exactly its input, plus the id and creation time it was given. */
  lemma NewTransactionRoundTrip(input: TransactionInput, id: string, now: Timestamp, t: Transaction)
    ensures InputOf(NewTransaction(input, id, now)) == input
    ensures NewTransaction(input, id, now).id == id && NewTransaction(input, id, now).createdAt == now
    ensures NewTransaction(InputOf(t), t.id, t.createdAt) == t
  {
  }

  // ---- sort orders ----

  /** `new Date(b.createdAt) - new Date(a.createdAt)`: newer records first. */
  predicate AccountNewerFirst(a: Account, b: Account) {
    a.createdAt >= b.createdAt
  }

  predicate WalletNewerFirst(a: Wallet, b: Wallet) {
    a.createdAt >= b.createdAt
  }

  /** `a.name.localeCompare(b.name)`, with `nameLe` the locale's collation order. */
  function ByName(nameLe: (string, string) -> bool): (Category, Category) -> bool {
    (a: Category, b: Category) => nameLe(a.name, b.name)
  }

  lemma NewerFirstIsTotalPreorder()
    ensures TotalPreorder(AccountNewerFirst)
    ensures TotalPreorder(WalletNewerFirst)
  {
  }

  lemma ByNameIsTotalPreorder(nameLe: (string, string) -> bool)
    requires TotalPreorder(nameLe)
    ensures TotalPreorder(ByName(nameLe))
  {
    var le := ByName(nameLe);
    forall a: Category, b: Category ensures le(a, b) || le(b, a) {
      assert nameLe(a.name, b.name) || nameLe(b.name, a.name);
    }
    forall a: Category, b: Category, c: Category | le(a, b) && le(b, c) ensures le(a, c) {
      assert nameLe(a.name, b.name) && nameLe(b.name, c.name);
    }
  }

  // ---- useAccounts ----

  class AccountsHook {
    const db: Database
    var accounts: seq<Account>
    var loading: bool
    var error: Option<HookError>

    /** Every cached account is the one the store holds under its id. */
    ghost predicate Mirrors()
      reads this, db
    {
      CachedIn(accounts, db.accounts, AccountKey)
    }

    constructor (db: Database)
      ensures this.db == db && accounts == [] && loading && error == None
    {
      this.db := db;
      accounts, loading, error := [], true, None;
    }

    /** loadAccounts: all stored accounts, newest first. */
    method LoadAccounts()
      requires db.Valid()
      modifies this`accounts, this`loading, this`error
      ensures !loading
      ensures !db.initialized ==> accounts == old(accounts) && error == Some(StoreFailure(NotInitialized))
      ensures db.initialized ==>
                && error == None
                && Sorted(accounts, AccountNewerFirst)
                && UniqueKeys(accounts, AccountKey)
                && (forall a :: a in accounts <==> a in db.accounts.Values)
                && Mirrors()
    {
      loading := true;
      var r := db.GetAllAccounts();
      if r.Err? {
        error := Some(StoreFailure(r.error));
      } else {
        accounts := SortBy(r.value, AccountNewerFirst);
        NewerFirstIsTotalPreorder();
        SortBySorted(r.value, AccountNewerFirst);
        SortByMembers(r.value, AccountNewerFirst);
        SortByKeepsUniqueKeys(r.value, AccountNewerFirst, AccountKey);
        CachedFromStore(accounts, db.accounts, AccountKey);
        error := None;
      }
      loading := false;
    }

    /** addAccount: a fresh account with balance 0 and no icon, listed first. */
    method AddAccount(id: string, now: Timestamp, name: string, description: Option<string>,
                      color: Option<string>) returns (r: Result<Account, HookError>)
      requires db.Valid()
      modifies this`accounts, this`error, db`accounts
      ensures db.Valid()
      ensures var account := Account(id, name, description, color, None, now, 0.0);
              if db.initialized && id !in old(db.accounts) then
                && r == Ok(account)
                && accounts == [account] + old(accounts)
                && db.accounts == old(db.accounts)[id := account]
                && error == old(error)
              else
                && r == Err(StoreFailure(if db.initialized then ConstraintError else NotInitialized))
                && accounts == old(accounts) && db.accounts == old(db.accounts)
                && error == Some(r.error)
      ensures old(Mirrors()) ==> Mirrors()
    {
      var account := Account(id, name, description, color, None, now, 0.0);
      var stored := db.AddAccount(account);
      if stored.Fail? {
        error := Some(StoreFailure(stored.error));
        return Err(StoreFailure(stored.error));
      }
      accounts := [account] + accounts;
      if old(Mirrors()) {
        CachedPrepend(account, old(accounts), old(db.accounts), AccountKey);
      }
      r := Ok(account);
    }

    /** updateAccount: reads the stored account, merges the update, writes it back. */
    method UpdateAccount(id: string, updates: AccountPatch) returns (r: Result<Account, HookError>)
      requires db.Valid()
      modifies this`accounts, this`error, db`accounts
      ensures db.Valid()
      ensures !db.initialized ==>
                && r == Err(StoreFailure(NotInitialized)) && error == Some(r.error)
                && accounts == old(accounts) && db.accounts == old(db.accounts)
      ensures db.initialized && id !in old(db.accounts) ==>
                && r == Err(AccountNotFound) && error == Some(AccountNotFound)
                && accounts == old(accounts) && db.accounts == old(db.accounts)
      ensures db.initialized && id in old(db.accounts) ==>
                var updated := MergeAccount(old(db.accounts)[id], updates);
                && r == Ok(updated)
                && db.accounts == old(db.accounts)[updated.id := updated]
                && accounts == ReplaceById(old(accounts), AccountKey, id, updated)
                && error == old(error)
      ensures old(Mirrors()) && updates.id.None? ==> Mirrors()
    {
      var found := db.GetAccount(id);
      if found.Err? {
        error := Some(StoreFailure(found.error));
        return Err(StoreFailure(found.error));
      }
      if found.value.None? {
        error := Some(AccountNotFound);
        return Err(AccountNotFound);
      }
      var updated := MergeAccount(found.value.value, updates);
      var stored := db.UpdateAccount(updated);
      accounts := ReplaceById(accounts, AccountKey, id, updated);
      if old(Mirrors()) && updates.id.None? {
        CachedReplace(old(accounts), old(db.accounts), AccountKey, id, updated);
      }
      r := Ok(updated);
    }

    /** deleteAccount: removes the account from the store and from the list. */
    method DeleteAccount(id: string) returns (r: Outcome<HookError>)
      requires db.Valid()
      modifies this`accounts, this`error, db`accounts
      ensures db.Valid()
      ensures db.initialized ==>
                && r == Pass && error == old(error)
                && db.accounts == old(db.accounts) - {id}
                && accounts == RemoveById(old(accounts), AccountKey, id)
      ensures !db.initialized ==>
                && r == Fail(StoreFailure(NotInitialized)) && error == Some(r.error)
                && accounts == old(accounts) && db.accounts == old(db.accounts)
      ensures old(Sorted(accounts, AccountNewerFirst)) ==> Sorted(accounts, AccountNewerFirst)
      ensures old(Mirrors()) ==> Mirrors()
    {
      var stored := db.DeleteAccount(id);
      if stored.Fail? {
        error := Some(StoreFailure(stored.error));
        return Fail(StoreFailure(stored.error));
      }
      accounts := RemoveById(accounts, AccountKey, id);
      if old(Mirrors()) {
        CachedRemove(old(accounts), old(db.accounts), AccountKey, id);
      }
      if Sorted(old(accounts), AccountNewerFirst) {
        RemoveByIdSorted(old(accounts), AccountKey, id, AccountNewerFirst);
      }
      r := Pass;
    }
  }

  // ---- useWallets ----

  class WalletsHook {
    const db: Database
    const accountId: Option<string>
    var wallets: seq<Wallet>
    var loading: bool
    var error: Option<HookError>

    ghost predicate Mirrors()
      reads this, db
    {
      CachedIn(wallets, db.wallets, WalletKey)
    }

    constructor (db: Database, accountId: Option<string>)
      ensures this.db == db && this.accountId == accountId
      ensures wallets == [] && loading && error == None
    {
      this.db := db;
      this.accountId := accountId;
      wallets, loading, error := [], true, None;
    }

    /** loadWallets: with no account selected the list is emptied and nothing else changes. */
    method LoadWallets()
      requires db.Valid()
      modifies this`wallets, this`loading, this`error
      ensures !Selected(accountId) ==> wallets == [] && loading == old(loading) && error == old(error)
      ensures Selected(accountId) ==> !loading
      ensures Selected(accountId) && !db.initialized ==>
                wallets == old(wallets) && error == Some(StoreFailure(NotInitialized))
      ensures Selected(accountId) && db.initialized ==>
                && error == None
                && Sorted(wallets, WalletNewerFirst)
                && UniqueKeys(wallets, WalletKey)
                && (forall w :: w in wallets <==> w in db.wallets.Values && w.accountId == accountId.value)
      ensures Selected(accountId) && db.initialized ==> Mirrors()
      ensures !Selected(accountId) ==> Mirrors()
    {
      if !Selected(accountId) {
        wallets := [];
        return;
      }
      loading := true;
      var r := db.GetWalletsByAccount(accountId.value);
      if r.Err? {
        error := Some(StoreFailure(r.error));
      } else {
        wallets := SortBy(r.value, WalletNewerFirst);
        NewerFirstIsTotalPreorder();
        SortBySorted(r.value, WalletNewerFirst);
        SortByMembers(r.value, WalletNewerFirst);
        SortByKeepsUniqueKeys(r.value, WalletNewerFirst, WalletKey);
        CachedFromStore(wallets, db.wallets, WalletKey);
        error := None;
      }
      loading := false;
    }

    /** addWallet: fails before touching any state when no account is selected. */
    method AddWallet(id: string, now: Timestamp, name: string, kind: WalletType)
      returns (r: Result<Wallet, HookError>)
      requires db.Valid()
      modifies this`wallets, this`error, db`wallets
      ensures db.Valid()
      ensures !Selected(accountId) ==>
                && r == Err(NoAccountSelected)
                && wallets == old(wallets) && error == old(error) && db.wallets == old(db.wallets)
      ensures Selected(accountId) ==>
                var wallet := Wallet(id, accountId.value, name, kind, 0.0, now);
                if db.initialized && id !in old(db.wallets) then
                  && r == Ok(wallet)
                  && wallets == [wallet] + old(wallets)
                  && db.wallets == old(db.wallets)[id := wallet]
                  && error == old(error)
                else
                  && r == Err(StoreFailure(if db.initialized then ConstraintError else NotInitialized))
                  && wallets == old(wallets) && db.wallets == old(db.wallets)
                  && error == Some(r.error)
      ensures old(Mirrors()) ==> Mirrors()
    {
      if !Selected(accountId) {
        return Err(NoAccountSelected);
      }
      var wallet := Wallet(id, accountId.value, name, kind, 0.0, now);
      var stored := db.AddWallet(wallet);
      if stored.Fail? {
        error := Some(StoreFailure(stored.error));
        return Err(StoreFailure(stored.error));
      }
      wallets := [wallet] + wallets;
      if old(Mirrors()) {
        CachedPrepend(wallet, old(wallets), old(db.wallets), WalletKey);
      }
      r := Ok(wallet);
    }

    /** updateWallet: the wallet is looked up in the cached list, not in the store. */
    method UpdateWallet(id: string, updates: WalletPatch) returns (r: Result<Wallet, HookError>)
      requires db.Valid()
      modifies this`wallets, this`error, db`wallets
      ensures db.Valid()
      ensures FindById(old(wallets), WalletKey, id).None? ==>
                && r == Err(WalletNotFound) && error == Some(WalletNotFound)
                && wallets == old(wallets) && db.wallets == old(db.wallets)
      ensures FindById(old(wallets), WalletKey, id).Some? && !db.initialized ==>
                && r == Err(StoreFailure(NotInitialized)) && error == Some(r.error)
                && wallets == old(wallets) && db.wallets == old(db.wallets)
      ensures FindById(old(wallets), WalletKey, id).Some? && db.initialized ==>
                var updated := MergeWallet(FindById(old(wallets), WalletKey, id).value, updates);
                && r == Ok(updated)
                && db.wallets == old(db.wallets)[updated.id := updated]
                && wallets == ReplaceById(old(wallets), WalletKey, id, updated)
                && error == old(error)
      ensures old(Mirrors()) && updates.id.None? ==> Mirrors()
    {
      var found := FindById(wallets, WalletKey, id);
      if found.None? {
        error := Some(WalletNotFound);
        return Err(WalletNotFound);
      }
      var updated := MergeWallet(found.value, updates);
      var stored := db.UpdateWallet(updated);
      if stored.Fail? {
        error := Some(StoreFailure(stored.error));
        return Err(StoreFailure(stored.error));
      }
      wallets := ReplaceById(wallets, WalletKey, id, updated);
      if old(Mirrors()) && updates.id.None? {
        CachedReplace(old(wallets), old(db.wallets), WalletKey, id, updated);
      }
      r := Ok(updated);
    }

    method DeleteWallet(id: string) returns (r: Outcome<HookError>)
      requires db.Valid()
      modifies this`wallets, this`error, db`wallets
      ensures db.Valid()
      ensures db.initialized ==>
                && r == Pass && error == old(error)
                && db.wallets == old(db.wallets) - {id}
                && wallets == RemoveById(old(wallets), WalletKey, id)
      ensures !db.initialized ==>
                && r == Fail(StoreFailure(NotInitialized)) && error == Some(r.error)
                && wallets == old(wallets) && db.wallets == old(db.wallets)
      ensures old(Sorted(wallets, WalletNewerFirst)) ==> Sorted(wallets, WalletNewerFirst)
      ensures old(Mirrors()) ==> Mirrors()
    {
      var stored := db.DeleteWallet(id);
      if stored.Fail? {
        error := Some(StoreFailure(stored.error));
        return Fail(StoreFailure(stored.error));
      }
      wallets := RemoveById(wallets, WalletKey, id);
      if old(Mirrors()) {
        CachedRemove(old(wallets), old(db.wallets), WalletKey, id);
      }
      if Sorted(old(wallets), WalletNewerFirst) {
        RemoveByIdSorted(old(wallets), WalletKey, id, WalletNewerFirst);
      }
      r := Pass;
    }
  }

  // ---- useCategories ----

  class CategoriesHook {
    const db: Database
    const accountId: Option<string>
    /** The browser's `localeCompare` order on names: "a may come before b". */
    const nameLe: (string, string) -> bool
    var categories: seq<Category>
    var loading: bool
    var error: Option<HookError>

    ghost predicate Mirrors()
      reads this, db
    {
      CachedIn(categories, db.categories, CategoryKey)
    }

    constructor (db: Database, accountId: Option<string>, nameLe: (string, string) -> bool)
      ensures this.db == db && this.accountId == accountId && this.nameLe == nameLe
      ensures categories == [] && loading && error == None
    {
      this.db := db;
      this.accountId := accountId;
      this.nameLe := nameLe;
      categories, loading, error := [], true, None;
    }

    /** loadCategories: the account's categories in name order. */
    method LoadCategories()
      requires db.Valid() && TotalPreorder(nameLe)
      modifies this`categories, this`loading, this`error
      ensures !Selected(accountId) ==> categories == [] && loading == old(loading) && error == old(error)
      ensures Selected(accountId) ==> !loading
      ensures Selected(accountId) && !db.initialized ==>
                categories == old(categories) && error == Some(StoreFailure(NotInitialized))
      ensures Selected(accountId) && db.initialized ==>
                && error == None
                && Sorted(categories, ByName(nameLe))
                && UniqueKeys(categories, CategoryKey)
                && (forall c :: c in categories <==> c in db.categories.Values && c.accountId == accountId.value)
                && Mirrors()
    {
      if !Selected(accountId) {
        categories := [];
        return;
      }
      loading := true;
      var r := db.GetCategoriesByAccount(accountId.value);
      if r.Err? {
        error := Some(StoreFailure(r.error));
      } else {
        categories := SortBy(r.value, ByName(nameLe));
        ByNameIsTotalPreorder(nameLe);
        SortBySorted(r.value, ByName(nameLe));
        SortByMembers(r.value, ByName(nameLe));
        SortByKeepsUniqueKeys(r.value, ByName(nameLe), CategoryKey);
        CachedFromStore(categories, db.categories, CategoryKey);
        error := None;
      }
      loading := false;
    }

    /** addCategory: the new category joins the list, which is sorted by name again. */
    method AddCategory(id: string, now: Timestamp, name: string, kind: CategoryType, color: Option<string>)
      returns (r: Result<Category, HookError>)
      requires db.Valid()
      modifies this`categories, this`error, db`categories
      ensures db.Valid()
      ensures !Selected(accountId) ==>
                && r == Err(NoAccountSelected)
                && categories == old(categories) && error == old(error) && db.categories == old(db.categories)
      ensures Selected(accountId) ==>
                var category := Category(id, accountId.value, name, kind, color, None, now);
                if db.initialized && id !in old(db.categories) then
                  && r == Ok(category)
                  && categories == SortBy(old(categories) + [category], ByName(nameLe))
                  && db.categories == old(db.categories)[id := category]
                  && error == old(error)
                else
                  && r == Err(StoreFailure(if db.initialized then ConstraintError else NotInitialized))
                  && categories == old(categories) && db.categories == old(db.categories)
                  && error == Some(r.error)
      ensures r.Ok? && TotalPreorder(nameLe) ==> Sorted(categories, ByName(nameLe))
      ensures old(Mirrors()) ==> Mirrors()
    {
      if !Selected(accountId) {
        return Err(NoAccountSelected);
      }
      var category := Category(id, accountId.value, name, kind, color, None, now);
      var stored := db.AddCategory(category);
      if stored.Fail? {
        error := Some(StoreFailure(stored.error));
        return Err(StoreFailure(stored.error));
      }
      categories := SortBy(categories + [category], ByName(nameLe));
      SortByMembers(old(categories) + [category], ByName(nameLe));
      if old(Mirrors()) {
        CachedAppend(category, old(categories), old(db.categories), CategoryKey);
        CachedSort(old(categories) + [category], db.categories, CategoryKey, ByName(nameLe));
      }
      if TotalPreorder(nameLe) {
        ByNameIsTotalPreorder(nameLe);
        SortBySorted(old(categories) + [category], ByName(nameLe));
      }
      r := Ok(category);
    }

    method UpdateCategory(id: string, updates: CategoryPatch) returns (r: Result<Category, HookError>)
      requires db.Valid()
      modifies this`categories, this`error, db`categories
      ensures db.Valid()
      ensures FindById(old(categories), CategoryKey, id).None? ==>
                && r == Err(CategoryNotFound) && error == Some(CategoryNotFound)
                && categories == old(categories) && db.categories == old(db.categories)
      ensures FindById(old(categories), CategoryKey, id).Some? && !db.initialized ==>
                && r == Err(StoreFailure(NotInitialized)) && error == Some(r.error)
                && categories == old(categories) && db.categories == old(db.categories)
      ensures FindById(old(categories), CategoryKey, id).Some? && db.initialized ==>
                var updated := MergeCategory(FindById(old(categories), CategoryKey, id).value, updates);
                && r == Ok(updated)
                && db.categories == old(db.categories)[updated.id := updated]
                && categories == SortBy(ReplaceById(old(categories), CategoryKey, id, updated), ByName(nameLe))
                && error == old(error)
      ensures r.Ok? && TotalPreorder(nameLe) ==> Sorted(categories, ByName(nameLe))
      ensures old(Mirrors()) && updates.id.None? ==> Mirrors()
    {
      var found := FindById(categories, CategoryKey, id);
      if found.None? {
        error := Some(CategoryNotFound);
        return Err(CategoryNotFound);
      }
      var updated := MergeCategory(found.value, updates);
      var stored := db.UpdateCategory(updated);
      if stored.Fail? {
        error := Some(StoreFailure(stored.error));
        return Err(StoreFailure(stored.error));
      }
      var replaced := ReplaceById(categories, CategoryKey, id, updated);
      categories := SortBy(replaced, ByName(nameLe));
      if old(Mirrors()) && updates.id.None? {
        CachedReplace(old(categories), old(db.categories), CategoryKey, id, updated);
        CachedSort(replaced, db.categories, CategoryKey, ByName(nameLe));
      }
      if TotalPreorder(nameLe) {
        ByNameIsTotalPreorder(nameLe);
        SortBySorted(replaced, ByName(nameLe));
      }
      r := Ok(updated);
    }

    method DeleteCategory(id: string) returns (r: Outcome<HookError>)
      requires db.Valid()
      modifies this`categories, this`error, db`categories
      ensures db.Valid()
      ensures db.initialized ==>
                && r == Pass && error == old(error)
                && db.categories == old(db.categories) - {id}
                && categories == RemoveById(old(categories), CategoryKey, id)
      ensures !db.initialized ==>
                && r == Fail(StoreFailure(NotInitialized)) && error == Some(r.error)
                && categories == old(categories) && db.categories == old(db.categories)
      ensures old(Sorted(categories, ByName(nameLe))) ==> Sorted(categories, ByName(nameLe))
      ensures old(Mirrors()) ==> Mirrors()
    {
      var stored := db.DeleteCategory(id);
      if stored.Fail? {
        error := Some(StoreFailure(stored.error));
        return Fail(StoreFailure(stored.error));
      }
      categories := RemoveById(categories, CategoryKey, id);
      if old(Mirrors()) {
        CachedRemove(old(categories), old(db.categories), CategoryKey, id);
      }
      if Sorted(old(categories), ByName(nameLe)) {
        RemoveByIdSorted(old(categories), CategoryKey, id, ByName(nameLe));
      }
      r := Pass;
    }
  }

  // ---- useTransactions ----

  /**
   * addTransaction prepends without sorting again: a new transaction dated
   * before the newest one leaves the list out of date order until the next load.
   */
  lemma PrependCanBreakDateOrder(tx: Transaction, s: seq<Transaction>)
    requires s != [] && tx.date < s[0].date
    ensures !Sorted([tx] + s, DateDescending)
  {
    var t := [tx] + s;
    assert t[0] == tx && t[1] == s[0];
    assert !DateDescending(t[0], t[1]);
  }

  /** Prepending keeps the list in date order exactly when the new transaction is not older than the head. */
  lemma PrependKeepsDateOrder(tx: Transaction, s: seq<Transaction>)
    requires Sorted(s, DateDescending)
    ensures Sorted([tx] + s, DateDescending) <==> s == [] || tx.date >= s[0].date
  {
    if s != [] && tx.date >= s[0].date {
      forall i, j | 0 <= i < j < |[tx] + s| ensures DateDescending(([tx] + s)[i], ([tx] + s)[j]) {
        if i == 0 {
          assert DateDescending(s[0], s[j - 1]) || j == 1;
        }
      }
    } else if s != [] {
      PrependCanBreakDateOrder(tx, s);
    }
  }

  class TransactionsHook {
    const db: Database
    const accountId: Option<string>
    var transactions: seq<Transaction>
    var loading: bool
    var error: Option<HookError>
    /** How many `walletBalanceChanged` events this hook has dispatched. */
    var signals: nat

    ghost predicate Mirrors()
      reads this, db
    {
      CachedIn(transactions, db.transactions, TransactionKey)
    }

    constructor (db: Database, accountId: Option<string>)
      ensures this.db == db && this.accountId == accountId
      ensures transactions == [] && loading && error == None && signals == 0
    {
      this.db := db;
      this.accountId := accountId;
      transactions, loading, error, signals := [], true, None, 0;
    }

    /** loadTransactions: the account's transactions, newest first. */
    method LoadTransactions()
      requires db.Valid()
      modifies this`transactions, this`loading, this`error
      ensures !Selected(accountId) ==> transactions == [] && loading == old(loading) && error == old(error)
      ensures Selected(accountId) ==> !loading
      ensures Selected(accountId) && !db.initialized ==>
                transactions == old(transactions) && error == Some(StoreFailure(NotInitialized))
      ensures Selected(accountId) && db.initialized ==>
                && error == None
                && Sorted(transactions, DateDescending)
                && UniqueKeys(transactions, TransactionKey)
                && (forall t :: t in transactions <==> t in db.transactions.Values && t.accountId == accountId.value)
                && Mirrors()
    {
      if !Selected(accountId) {
        transactions := [];
        return;
      }
      loading := true;
      var r := db.GetTransactionsByAccount(accountId.value);
      if r.Err? {
        error := Some(StoreFailure(r.error));
      } else {
        transactions := SortBy(r.value, DateDescending);
        DateDescendingIsTotalPreorder();
        SortBySorted(r.value, DateDescending);
        SortByMembers(r.value, DateDescending);
        SortByKeepsUniqueKeys(r.value, DateDescending, TransactionKey);
        CachedFromStore(transactions, db.transactions, TransactionKey);
        error := None;
      }
      loading := false;
    }

    /**
     * addTransaction: stores the transaction, lists it first and signals
     * the balance listeners. Only the transactions store is written: no
     * wallet balance is changed.
     */
    method AddTransaction(input: TransactionInput, id: string, now: Timestamp)
      returns (r: Result<Transaction, HookError>)
      requires db.Valid()
      modifies this`transactions, this`error, this`signals, db`transactions
      ensures db.Valid() && db.wallets == old(db.wallets)
      ensures var tx := NewTransaction(input, id, now);
              if db.initialized && id !in old(db.transactions) then
                && r == Ok(tx)
                && transactions == [tx] + old(transactions)
                && db.transactions == old(db.transactions)[id := tx]
                && error == old(error) && signals == old(signals) + 1
              else
                && r == Err(StoreFailure(if db.initialized then ConstraintError else NotInitialized))
                && transactions == old(transactions) && db.transactions == old(db.transactions)
                && error == Some(r.error) && signals == old(signals)
      ensures old(Mirrors()) ==> Mirrors()
    {
      var tx := NewTransaction(input, id, now);
      var stored := db.AddTransaction(tx);
      if stored.Fail? {
        error := Some(StoreFailure(stored.error));
        return Err(StoreFailure(stored.error));
      }
      transactions := [tx] + transactions;
      if old(Mirrors()) {
        CachedPrepend(tx, old(transactions), old(db.transactions), TransactionKey);
      }
      signals := signals + 1;
      r := Ok(tx);
    }

    /** updateTransaction: merges into the cached transaction, stores it and re-sorts the list. */
    method UpdateTransaction(id: string, updates: TransactionPatch) returns (r: Result<Transaction, HookError>)
      requires db.Valid()
      modifies this`transactions, this`error, this`signals, db`transactions
      ensures db.Valid() && db.wallets == old(db.wallets)
      ensures FindById(old(transactions), TransactionKey, id).None? ==>
                && r == Err(TransactionNotFound) && error == Some(TransactionNotFound)
                && transactions == old(transactions) && db.transactions == old(db.transactions)
                && signals == old(signals)
      ensures FindById(old(transactions), TransactionKey, id).Some? && !db.initialized ==>
                && r == Err(StoreFailure(NotInitialized)) && error == Some(r.error)
                && transactions == old(transactions) && db.transactions == old(db.transactions)
                && signals == old(signals)
      ensures FindById(old(transactions), TransactionKey, id).Some? && db.initialized ==>
                var updated := MergeTransaction(FindById(old(transactions), TransactionKey, id).value, updates);
                && r == Ok(updated)
                && db.transactions == old(db.transactions)[updated.id := updated]
                && transactions == SortBy(ReplaceById(old(transactions), TransactionKey, id, updated), DateDescending)
                && error == old(error) && signals == old(signals) + 1
      ensures r.Ok? ==> Sorted(transactions, DateDescending)
      ensures old(Mirrors()) && updates.id.None? ==> Mirrors()
    {
      var found := FindById(transactions, TransactionKey, id);
      if found.None? {
        error := Some(TransactionNotFound);
        return Err(TransactionNotFound);
      }
      var updated := MergeTransaction(found.value, updates);
      var stored := db.UpdateTransaction(updated);
      if stored.Fail? {
        error := Some(StoreFailure(stored.error));
        return Err(StoreFailure(stored.error));
      }
      var replaced := ReplaceById(transactions, TransactionKey, id, updated);
      transactions := SortBy(replaced, DateDescending);
      if old(Mirrors()) && updates.id.None? {
        CachedReplace(old(transactions), old(db.transactions), TransactionKey, id, updated);
        CachedSort(replaced, db.transactions, TransactionKey, DateDescending);
      }
      DateDescendingIsTotalPreorder();
      SortBySorted(replaced, DateDescending);
      signals := signals + 1;
      r := Ok(updated);
    }

    method DeleteTransaction(id: string) returns (r: Outcome<HookError>)
      requires db.Valid()
      modifies this`transactions, this`error, this`signals, db`transactions
      ensures db.Valid() && db.wallets == old(db.wallets)
      ensures db.initialized ==>
                && r == Pass && error == old(error) && signals == old(signals) + 1
                && db.transactions == old(db.transactions) - {id}
                && transactions == RemoveById(old(transactions), TransactionKey, id)
      ensures !db.initialized ==>
                && r == Fail(StoreFailure(NotInitialized)) && error == Some(r.error)
                && transactions == old(transactions) && db.transactions == old(db.transactions)
                && signals == old(signals)
      ensures old(Sorted(transactions, DateDescending)) ==> Sorted(transactions, DateDescending)
      ensures old(Mirrors()) ==> Mirrors()
    {
      var stored := db.DeleteTransaction(id);
      if stored.Fail? {
        error := Some(StoreFailure(stored.error));
        return Fail(StoreFailure(stored.error));
      }
      transactions := RemoveById(transactions, TransactionKey, id);
      if old(Mirrors()) {
        CachedRemove(old(transactions), old(db.transactions), TransactionKey, id);
      }
      if Sorted(old(transactions), DateDescending) {
        RemoveByIdSorted(old(transactions), TransactionKey, id, DateDescending);
      }
      signals := signals + 1;
      r := Pass;
    }
  }
}
