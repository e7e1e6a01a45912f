# Expense tracker data layer, in Dafny

This project models the data layer and money arithmetic of a small offline
expense tracker. The tracker is a React app that keeps accounts, wallets,
categories, transactions and transfers in the browser's IndexedDB. The model
covers these parts:

- **The store** (`Store.Database`). A class with five keyed tables and an
  "initialized" flag. `add` refuses an existing key, which is the no-overwrite
  rule of section 5.1 of the W3C Indexed Database API 3.0. `update` is a
  `put`, so it inserts or replaces. Deleting a missing key succeeds. The index
  queries are filters. The date query is a closed `IDBKeyRange.bound`, with
  both ends included (section 2.9 of the same API). Every operation fails with
  "Database not initialized" while the handle is absent.
- **The data hooks** (`Hooks`). One class per hook. Each holds the cached
  list, `loading` and `error`, and writes through to the store before it
  changes the cache. The hooks cover:
  - loading a sorted list;
  - prepending new records; categories are instead re-sorted by name;
  - merging partial updates, which always keep the old `createdAt`;
  - replace-by-id and remove-by-id on the cached list;
  - the "not found" and "No account selected" errors;
  - the `walletBalanceChanged` signal, counted in `signals`. It fires only
    after a successful transaction write.
- **The helpers** (`Helpers`):
  - wallet and account balances;
  - the "Today" / "Yesterday" / date labels;
  - `groupTransactionsByDate`, an imperative loop proved against a filter of
    the sorted list;
  - the preset colour names.
- **The transaction form** (`TransactionForm.Form`). `validate`, which fills
  an error map step by step. The record it builds, with the sign rule: an
  expense is stored as a negative amount. The edit prefill and the new-form
  defaults. The add/update branch of `handleSubmit`.
- **The pages**:
  - the transactions page's type filter, search and totals;
  - the dashboard's totals and recent five;
  - the income/expense classification of a list item;
  - the wallets page's icon, balance class and total.

Supporting modules:

- `Types` holds the records.
- `Lists` holds `filter`, `find`, replace/remove by id and sums.
- `Sorting` models ECMAScript's stable `Array.prototype.sort` as an insertion
  sort.
- `Text` holds `trim` and `includes`.

Amounts are `real`, timestamps are integer milliseconds, and ids are strings.
Ids and the current time are passed in as parameters. `parseFloat`,
`toLowerCase`, `localeCompare` and the locale's calendar are parameters
too: `parse`, `lower`, `nameLe` and `Clock`.

**The code keeps no balance ledger.** Adding, updating or deleting a
transaction writes only the transactions table, and `addTransfer` writes
only the transfers table. No operation changes a wallet's `balance`: a new
wallet starts at 0, and only an explicit `updateWallet` changes it. The store
and hook methods state this (`db.wallets == old(db.wallets)`). A wallet's
ledger balance is stated as the function `Helpers.CalculateWalletBalance` of
its transactions. The wallets page's delete dialog says that the wallet's
transactions are deleted too, but `deleteWallet` removes only the wallet
record. The dashboard's totals sit under a "This Month" heading, yet they run
over every loaded transaction, whatever its date
(`Dashboard.TotalsIncludeEveryDate`).

## Model

| member | source | states |
|---|---|---|
| Store.Database.constructor | src/db/index.ts:6-7 | a new handle is uninitialized and all five tables are empty |
| Store.Database.Initialize | src/db/index.ts:9-55 | opening sets the initialized flag and reports a failed open |
| Store.Database.AddAccount | src/db/index.ts:65-73 | NotInitialized without a handle; ConstraintError and no change for an existing id; otherwise the id maps to the account |
| Store.Database.UpdateAccount | src/db/index.ts:75-83 | upsert: the id maps to the given account and every other key is unchanged; NotInitialized changes nothing |
| Store.Database.DeleteAccount | src/db/index.ts:85-93 | exactly that key is removed, and an absent key succeeds unchanged |
| Store.Database.GetAccount | src/db/index.ts:95-103 | null exactly when the id is absent, otherwise the stored account |
| Store.Database.GetAllAccounts | src/db/index.ts:105-113 | exactly the stored accounts, each once |
| Store.Database.AddWallet | src/db/index.ts:116-124 | as for accounts: refuses an existing id, otherwise inserts |
| Store.Database.UpdateWallet | src/db/index.ts:126-134 | upsert of the wallet under its id |
| Store.Database.DeleteWallet | src/db/index.ts:136-144 | removes exactly that key |
| Store.Database.GetWalletsByAccount | src/db/index.ts:146-154 | exactly the stored wallets whose accountId is the argument |
| Store.Database.AddCategory | src/db/index.ts:157-165 | refuses an existing id, otherwise inserts |
| Store.Database.UpdateCategory | src/db/index.ts:167-175 | upsert of the category under its id |
| Store.Database.DeleteCategory | src/db/index.ts:177-185 | removes exactly that key |
| Store.Database.GetCategoriesByAccount | src/db/index.ts:187-195 | exactly the stored categories of that account |
| Store.Database.AddTransaction | src/db/index.ts:198-206 | refuses an existing id, otherwise inserts; the wallets table is untouched |
| Store.Database.UpdateTransaction | src/db/index.ts:208-216 | upsert of the transaction; the wallets table is untouched |
| Store.Database.DeleteTransaction | src/db/index.ts:218-226 | removes exactly that key; the wallets table is untouched |
| Store.Database.GetTransactionsByWallet | src/db/index.ts:228-236 | exactly the stored transactions of that wallet |
| Store.Database.GetTransactionsByAccount | src/db/index.ts:238-246 | exactly the stored transactions of that account |
| Store.Database.GetTransactionsByDate | src/db/index.ts:248-257 | exactly the transactions with start <= date <= end; DataError when start > end |
| Store.Database.AddTransfer | src/db/index.ts:260-268 | refuses an existing id, otherwise inserts; wallets and transactions are untouched |
| Store.Database.GetTransfersByAccount | src/db/index.ts:270-278 | exactly the transfers whose source account is the argument; transfers into the account are not returned |
| Store.Database.Clear | src/db/index.ts:287-293 | clearing one table empties it and leaves the other four as they were |
| Store.Database.ClearAll | src/db/index.ts:281-297 | all five tables are empty afterwards; without a handle nothing changes |
| Store.Collect | src/db/index.ts:105-113 | a cursor over a table yields each stored record satisfying the index test exactly once |
| Lists.FindById | src/hooks/useData.ts:127 | None exactly when no element has the id, otherwise the first element that has it |
| Lists.ReplaceById | src/hooks/useData.ts:214 | same length; entries with the id become the update, every other entry is kept in place |
| Lists.RemoveById | src/hooks/useData.ts:143 | keeps exactly the entries with other ids, each as often as before and in the same order |
| Lists.RemoveByIdIsFilter | src/hooks/useData.ts:61 | removing by id is the filter on "id differs" |
| Lists.FilterMembers | src/pages/TransactionsPage.tsx:32 | `filter` keeps an element exactly when it satisfies the test |
| Lists.FilterIsSubsequence | src/pages/TransactionsPage.tsx:32 | `filter` keeps the original order |
| Lists.SumPermutation | src/utils/helpers.ts:18-20 | a sum does not depend on the order of its terms |
| Sorting.SortBySorted | src/hooks/useData.ts:15 | under a total preorder, the sorted list is ordered |
| Sorting.SortByStable | src/utils/helpers.ts:73-77 | the sort is stable: elements that compare equal keep their input order |
| Sorting.SortByMembers | src/hooks/useData.ts:252 | the sort keeps exactly the same elements |
| Sorting.FilterSorted | src/utils/helpers.ts:85 | a filter of an ordered list is ordered |
| Sorting.RemoveByIdSorted | src/hooks/useData.ts:303 | removing by id keeps a sorted cache sorted |
| Hooks.MergeAccount | src/hooks/useData.ts:48 | the merged account keeps the old createdAt whatever the update holds |
| Hooks.MergeWallet | src/hooks/useData.ts:130 | the merged wallet keeps the old createdAt |
| Hooks.MergeCategory | src/hooks/useData.ts:212 | the merged category keeps the old createdAt |
| Hooks.MergeTransaction | src/hooks/useData.ts:286 | the merged transaction keeps the old createdAt |
| Hooks.MergeTransactionIdempotent | src/hooks/useData.ts:286 | applying an update twice equals applying it once, and a createdAt in the update is ignored |
| Hooks.NewTransactionRoundTrip | src/hooks/useData.ts:263-267 | a new transaction carries exactly its input plus the given id and creation time |
| Hooks.ByNameIsTotalPreorder | src/hooks/useData.ts:178 | comparing categories by a total name order is a total preorder |
| Hooks.CachedSort | src/hooks/useData.ts:199 | sorting a cache keeps every entry equal to the stored record |
| Hooks.SortByKeepsUniqueKeys | src/hooks/useData.ts:15 | sorting a list in which every id occurs once keeps every id once |
| Hooks.CachedReplace | src/hooks/useData.ts:288 | replacing by id, after the same store write, keeps the cache equal to the store |
| Hooks.MessageIdentifiesError | src/hooks/useData.ts:46 | each failure the hooks record ("Database not initialized", "Account not found", "Wallet not found", "Category not found", "Transaction not found", "No account selected", or a store error's name) has its own text |
| Hooks.PrependKeepsDateOrder | src/hooks/useData.ts:269 | prepending keeps a date-descending list sorted exactly when the new date is not older than the head |
| Hooks.PrependCanBreakDateOrder | src/hooks/useData.ts:269 | adding an older transaction leaves the cache out of date order, because addTransaction does not re-sort |
| Hooks.AccountsHook.LoadAccounts | src/hooks/useData.ts:11-22 | the list holds exactly the stored accounts, each once, newest first, and mirrors the store |
| Hooks.AccountsHook.AddAccount | src/hooks/useData.ts:24-41 | a new account with balance 0 is stored and prepended; on failure the error is recorded and nothing changes |
| Hooks.AccountsHook.UpdateAccount | src/hooks/useData.ts:43-56 | looks the account up in the store; "Account not found" with no write; otherwise stores the merge and replaces it in the list |
| Hooks.AccountsHook.DeleteAccount | src/hooks/useData.ts:58-66 | removes the key from the store and exactly the entries with that id from the list |
| Hooks.WalletsHook.LoadWallets | src/hooks/useData.ts:88-103 | without an account the list is empty and the store is not read; otherwise it holds exactly the account's stored wallets, each once, newest first |
| Hooks.WalletsHook.AddWallet | src/hooks/useData.ts:105-123 | "No account selected" changes nothing; otherwise a wallet with balance 0 is stored and prepended |
| Hooks.WalletsHook.UpdateWallet | src/hooks/useData.ts:125-138 | "Wallet not found" with no store write when the id is not cached; otherwise the merge is stored and replaced |
| Hooks.WalletsHook.DeleteWallet | src/hooks/useData.ts:140-148 | removes the key and exactly the entries with that id; the order is kept |
| Hooks.CategoriesHook.LoadCategories | src/hooks/useData.ts:170-185 | exactly the account's stored categories, each once, sorted by name |
| Hooks.CategoriesHook.AddCategory | src/hooks/useData.ts:187-205 | "No account selected" changes nothing; otherwise the category is stored and the list is re-sorted by name |
| Hooks.CategoriesHook.UpdateCategory | src/hooks/useData.ts:207-220 | "Category not found" with no write; otherwise the merge is stored and the list re-sorted by name |
| Hooks.CategoriesHook.DeleteCategory | src/hooks/useData.ts:222-230 | removes the key and exactly the entries with that id, keeping the name order |
| Hooks.TransactionsHook.LoadTransactions | src/hooks/useData.ts:244-259 | exactly the account's stored transactions, each once, newest first |
| Hooks.TransactionsHook.AddTransaction | src/hooks/useData.ts:261-279 | stored and prepended without re-sorting; the balance signal fires only on success; wallets untouched |
| Hooks.TransactionsHook.UpdateTransaction | src/hooks/useData.ts:281-298 | "Transaction not found" with no write and no signal; otherwise the merge is stored, the list re-sorted newest first, one signal |
| Hooks.TransactionsHook.DeleteTransaction | src/hooks/useData.ts:300-311 | removes the key and the entries with that id; one signal on success, none on failure |
| Helpers.WalletBalanceIsAmountSum | src/utils/helpers.ts:7-16 | the balance is the plain sum of the amounts: both branches add the amount and only a zero transfer falls through |
| Helpers.WalletBalanceAppend | src/utils/helpers.ts:8-15 | the balance is additive over concatenation |
| Helpers.WalletBalancePermutation | src/utils/helpers.ts:7-16 | the balance does not depend on the order of the transactions |
| Helpers.AccountBalanceIsSum | src/utils/helpers.ts:18-20 | the account balance is the sum of the wallet balances |
| Helpers.AccountBalancePermutation | src/utils/helpers.ts:18-20 | the account balance does not depend on the wallet order |
| Helpers.AccountBalanceNonNegative | src/utils/helpers.ts:18-20 | with no overdrawn wallet the account balance is not negative |
| Helpers.SameDaySameLabel | src/utils/helpers.ts:63-67 | two times on the same local day get the same label |
| Helpers.LabelIdentifiesDay | src/utils/helpers.ts:63-67 | with distinct date texts, equal labels mean the same local day |
| Helpers.DateDescendingIsTotalPreorder | src/utils/helpers.ts:73-77 | newest-first by date is a total preorder |
| Helpers.GroupTransactionsByDate | src/utils/helpers.ts:69-89 | each group is the sorted transactions carrying its label; every transaction has a group; no group is empty; labels are distinct, newest group first |
| Helpers.GroupIsNewestFirst | src/utils/helpers.ts:73-85 | within a group, dates do not increase |
| Helpers.GroupIsPermutationOfLabelled | src/utils/helpers.ts:69-89 | a group holds exactly the input transactions with that label, as often as in the input |
| Helpers.GetColorName | src/utils/helpers.ts:103-106 | any text that is not exactly a preset value is "custom" |
| Helpers.PresetColorNamed | src/utils/helpers.ts:92-106 | each of the eight preset values gets its own preset name back |
| Text.TrimEmptyIffBlank | src/pages/TransactionForm.tsx:64 | trimming leaves nothing exactly when the text is all white space |
| Text.TrimShape | src/pages/TransactionForm.tsx:64 | the trimmed text is the part of the input left between white space at both ends, and is not padded |
| Text.ContainsIffOccurs | src/pages/TransactionsPage.tsx:38-39 | substring search succeeds exactly when the query occurs at some position |
| TransactionForm.UtcMidnightOfDay | src/pages/TransactionForm.tsx:44-46 | the date field's day, read back, is midnight UTC of the same day |
| TransactionForm.DefaultsAreInvalid | src/pages/TransactionForm.tsx:49-57 | a fresh form, whatever the wallets, fails validation |
| TransactionForm.DataAmountSign | src/pages/TransactionForm.tsx:65-82 | after validation an expense is stored strictly negative and income or a transfer strictly positive |
| TransactionForm.DataOptionalFields | src/pages/TransactionForm.tsx:84-85 | a transfer has no category, and empty notes are stored as absent |
| TransactionForm.ResubmitUnchangedEdit | src/pages/TransactionForm.tsx:38-48 | for a transaction stored by the sign rule (income and transfers not negative, expense not positive), prefilling an edit with the amount's size and resubmitting it reproduces the stored amount and fields; only the time of day changes, empty notes become absent, a transfer loses its category, and a non-transfer without a category comes back with the empty category |
| TransactionForm.ResubmitFlipsOutgoingTransfer | src/pages/TransactionForm.tsx:41-82 | for a transfer stored with a negative amount, an unchanged resubmit stores the opposite, positive amount |
| TransactionForm.Form.constructor | src/pages/TransactionForm.tsx:25-33 | the initial state: an expense with empty fields, no errors, not loading |
| TransactionForm.Form.Open | src/pages/TransactionForm.tsx:36-60 | an edit prefills from the transaction, otherwise the defaults: expense, first wallet or ""; errors cleared |
| TransactionForm.Form.Validate | src/pages/TransactionForm.tsx:62-70 | true exactly when the trimmed title is non-empty, amount > 0, a wallet is set and a category is set or the type is transfer; each failed rule has its own message |
| TransactionForm.Form.HandleSubmit | src/pages/TransactionForm.tsx:72-100 | no call unless valid and an account is selected; an edit updates that id, otherwise add; the submit message on failure |
| TransactionForm.Form.Save | src/pages/TransactionForm.tsx:75-99 | the hook call and its outcome: closed with no messages on success, the "submit" message on failure |
| TransactionItem.NeverBoth | src/components/TransactionItem.tsx:20-21 | no transaction is both income and expense |
| TransactionItem.PrefixMatchesClass | src/components/TransactionItem.tsx:37-38 | sign and class always agree; a zero transfer gets neither |
| TransactionItem.ShownValueIsAmount | src/components/TransactionItem.tsx:38 | under the sign rule, the sign and the shown size give back the stored amount |
| TransactionItem.ClassFollowsSign | src/components/TransactionItem.tsx:20-21 | under the sign rule a non-zero amount is shown as income exactly when positive |
| Dashboard.Expense | src/pages/Dashboard.tsx:37-39 | the expense total is never negative |
| Dashboard.FiltersMatchListClasses | src/pages/Dashboard.tsx:33-39 | the dashboard's filters are the list item's income/expense classification |
| Dashboard.TotalsIncludeEveryDate | src/pages/Dashboard.tsx:33-39 | each transaction enters the totals by type and amount alone, whatever its date |
| Dashboard.ZeroTransferIgnored | src/pages/Dashboard.tsx:34-38 | a zero-amount transfer changes neither total |
| Dashboard.NetIsWalletBalance | src/pages/Dashboard.tsx:33-39 | under the sign rule, income minus expense is calculateWalletBalance of the same transactions |
| Dashboard.Recent | src/pages/Dashboard.tsx:133 | the first min(5, n) transactions in loaded order |
| Dashboard.RecentAreNewest | src/pages/Dashboard.tsx:133 | with the list newest first, no omitted transaction is newer than a shown one |
| TransactionsPage.FilteredMembers | src/pages/TransactionsPage.tsx:28-44 | listed exactly when it has the chosen type and, for a non-blank search box, its lowercased title or notes contain the lowercased, untrimmed query |
| TransactionsPage.FilteredIsSubsequence | src/pages/TransactionsPage.tsx:28-44 | the listed transactions are a subsequence of the loaded ones |
| TransactionsPage.UnfilteredIsIdentity | src/pages/TransactionsPage.tsx:29-35 | with "all" and a blank search box the list is the input |
| TransactionsPage.MatchesQueryIffOccurs | src/pages/TransactionsPage.tsx:37-40 | the search keeps a transaction exactly when the query occurs in its lowercased title or notes |
| TransactionsPage.ComputeStats | src/pages/TransactionsPage.tsx:50-54 | the expense figure is never negative and net is income minus expense |
| TransactionsPage.StatsIgnoreTransfers | src/pages/TransactionsPage.tsx:51-52 | a transfer of any amount changes none of the figures |
| TransactionsPage.NetIsBalanceWithoutTransfers | src/pages/TransactionsPage.tsx:50-54 | under the sign rule, net is calculateWalletBalance of the non-transfer transactions |
| TransactionsPage.DashboardAddsTransfers | src/pages/TransactionsPage.tsx:51-52 | the dashboard's totals are these plus the incoming and outgoing transfers |
| WalletsPage.WalletIconIdentifiesType | src/pages/WalletsPage.tsx:25-32 | cash, bank, card and other types each get their own icon |
| WalletsPage.BalanceClass | src/pages/WalletsPage.tsx:102 | "positive" exactly when the balance is >= 0, so zero is positive |
| WalletsPage.TotalBalanceIsWalletSum | src/pages/WalletsPage.tsx:23 | the total is the sum of the wallet balances, and 0 without wallets |

## Left out

- Opening the database and creating its schema (src/db/index.ts:9-55). `Initialize` only records whether the open succeeded.
- Contents persisted from an earlier session. `Store.Database.constructor` starts with empty tables, as a first open does; the hooks accept any `Database`, so they do not rely on this.
- Promise and request-callback plumbing, and the browser's exception texts. A store failure is named by its DOMException name.
- `generateId`. It reads the clock and `Math.random`, so fresh ids are parameters. A collision shows up as ConstraintError.
- `formatCurrency`, `formatDate`, `formatDateTime` and `Intl`. The date text of a day is a parameter of `Helpers.Clock`, and so is the local calendar `isToday`/`isYesterday` read.
- `parseFloat`, `toLowerCase` and `localeCompare`. They are parameters. The amount field holds either text typed by the user or the number a prefill put there.
- NaN amounts are not modelled: `parse` returns a real for every text.
- JavaScript numbers are modelled as exact reals, so rounding is not modelled.
- The order of IndexedDB's key cursor. The queries return the matching records in an unspecified order, which is what every load sorts away.
- The `walletBalanceChanged` event bus and its listeners (src/hooks/useData.ts:68-78, 150-160). The signal is a counter. The listeners' reaction is a call to `LoadAccounts` / `LoadWallets`.
- React state, effects and stale closures. The hooks act on their current fields.
- The `receipt` field of a transaction.
- The date input's text form. The form holds the UTC day number that `toISOString().split('T')[0]` denotes.
- Any automatic wallet-balance update or transfer pairing. The code does not do either.
- TransactionForm.ResubmitUnchangedEdit: covers every transaction except a transfer stored with a negative amount. The form never creates one, and for one that exists an unchanged edit flips its sign (`TransactionForm.ResubmitFlipsOutgoingTransfer`).
- Rendering-only pages and components.
- Hooks.AccountsHook.UpdateAccount, Hooks.WalletsHook.UpdateWallet, Hooks.CategoriesHook.UpdateCategory, Hooks.TransactionsHook.UpdateTransaction: the cache is shown to mirror the store only when the update does not change the id. A patch that changes the id stores the record under its new id but replaces it under the old one in the list.
