/**
 * The tracker's pure helpers: wallet and account balances computed from
 * their parts, the "Today" / "Yesterday" / date labels of the transaction
 * list, grouping transactions under those labels, and the preset colour
 * palette.
 */
module Helpers {
  import opened Types
  import opened Lists
  import opened Sorting

  // ---- balances ----

  function AmountOf(t: Transaction): Money { t.amount }

  function BalanceOf(w: Wallet): Money { w.balance }

  /**
   * One step of the `reduce` in calculateWalletBalance. Its three branches
   * (income or an incoming transfer; expense or an outgoing transfer; a
   * transfer of zero) all come down to adding the signed amount.
   */
  function WalletBalanceStep(balance: Money, tx: Transaction): (r: Money)
    ensures r == balance + tx.amount
  {
    if tx.kind.Income? || (tx.kind.Transfer? && tx.amount > 0.0) then balance + tx.amount
    else if tx.kind.Expense? || (tx.kind.Transfer? && tx.amount < 0.0) then balance + tx.amount
    else balance
  }

  /** `transactions.reduce(step, 0)`, folded from the left as `reduce` does. */
  function CalculateWalletBalance(txs: seq<Transaction>): Money
  {
    if txs == [] then 0.0
    else WalletBalanceStep(CalculateWalletBalance(txs[..|txs| - 1]), txs[|txs| - 1])
  }

  /** The balance is the plain sum of the signed amounts. */
  lemma {:induction false} WalletBalanceIsAmountSum(txs: seq<Transaction>)
    ensures CalculateWalletBalance(txs) == Sum(txs, AmountOf)
  {
    if txs != [] {
      var init, last := txs[..|txs| - 1], txs[|txs| - 1];
      WalletBalanceIsAmountSum(init);
      assert txs == init + [last];
      SumAppend(init, [last], AmountOf);
    }
  }

  /** Balances of consecutive runs of transactions add up. */
  lemma WalletBalanceAppend(a: seq<Transaction>, b: seq<Transaction>)
    ensures CalculateWalletBalance(a + b) == CalculateWalletBalance(a) + CalculateWalletBalance(b)
  {
    WalletBalanceIsAmountSum(a + b);
    WalletBalanceIsAmountSum(a);
    WalletBalanceIsAmountSum(b);
    SumAppend(a, b, AmountOf);
  }

  /** The order in which the store returns transactions does not change the balance. */
  lemma WalletBalancePermutation(a: seq<Transaction>, b: seq<Transaction>)
    requires multiset(a) == multiset(b)
    ensures CalculateWalletBalance(a) == CalculateWalletBalance(b)
  {
    WalletBalanceIsAmountSum(a);
    WalletBalanceIsAmountSum(b);
    SumPermutation(a, b, AmountOf);
  }

  /** `wallets.reduce((total, w) => total + w.balance, 0)`. */
  function CalculateAccountBalance(ws: seq<Wallet>): Money
  {
    if ws == [] then 0.0
    else CalculateAccountBalance(ws[..|ws| - 1]) + ws[|ws| - 1].balance
  }

  lemma {:induction false} AccountBalanceIsSum(ws: seq<Wallet>)
    ensures CalculateAccountBalance(ws) == Sum(ws, BalanceOf)
  {
    if ws != [] {
      var init, last := ws[..|ws| - 1], ws[|ws| - 1];
      AccountBalanceIsSum(init);
      assert ws == init + [last];
      SumAppend(init, [last], BalanceOf);
    }
  }

  /** The account total does not depend on the order of its wallets. */
  lemma AccountBalancePermutation(a: seq<Wallet>, b: seq<Wallet>)
    requires multiset(a) == multiset(b)
    ensures CalculateAccountBalance(a) == CalculateAccountBalance(b)
  {
    AccountBalanceIsSum(a);
    AccountBalanceIsSum(b);
    SumPermutation(a, b, BalanceOf);
  }

  /** With no overdrawn wallet, the account total is not negative. */
  lemma AccountBalanceNonNegative(ws: seq<Wallet>)
    requires forall w :: w in ws ==> w.balance >= 0.0
    ensures CalculateAccountBalance(ws) >= 0.0
  {
    AccountBalanceIsSum(ws);
    SumNonNegative(ws, BalanceOf);
  }

  // ---- date labels ----

  /**
   * What the helpers read from the environment: the current time, the
   * calendar day a time falls on in the browser's time zone (the
   * getDate/getMonth/getFullYear triple, as one day number), and the
   * en-US "Mon D, YYYY" text of a local day.
   */
  datatype Clock = Clock(now: Timestamp, localDay: Timestamp -> int, dayText: int -> string)

  predicate IsToday(c: Clock, d: Timestamp) {
    c.localDay(d) == c.localDay(c.now)
  }

  /** Compares with the local day of `now` minus 86400000 ms. */
  predicate IsYesterday(c: Clock, d: Timestamp) {
    c.localDay(d) == c.localDay(c.now - DayMillis)
  }

  function FormatDate(c: Clock, d: Timestamp): string {
    c.dayText(c.localDay(d))
  }

  function FormatTransactionDate(c: Clock, d: Timestamp): string {
    if IsToday(c, d) then "Today"
    else if IsYesterday(c, d) then "Yesterday"
    else FormatDate(c, d)
  }

  /** The label depends on the local day only. */
  lemma SameDaySameLabel(c: Clock, d1: Timestamp, d2: Timestamp)
    requires c.localDay(d1) == c.localDay(d2)
    ensures FormatTransactionDate(c, d1) == FormatTransactionDate(c, d2)
  {
  }

  /**
   * When day texts are distinct and never read "Today" or "Yesterday",
   * equal labels mean the same local day: a label names one day.
   */
  lemma LabelIdentifiesDay(c: Clock, d1: Timestamp, d2: Timestamp)
    requires forall x, y :: c.dayText(x) == c.dayText(y) ==> x == y
    requires forall x :: c.dayText(x) != "Today" && c.dayText(x) != "Yesterday"
    requires FormatTransactionDate(c, d1) == FormatTransactionDate(c, d2)
    ensures c.localDay(d1) == c.localDay(d2)
  {
    assert "Today" != "Yesterday" by { assert |"Today"| != |"Yesterday"|; }
  }

  // ---- grouping ----

  /** The comparator `dateB - dateA`: a newer transaction may come first. */
  predicate DateDescending(a: Transaction, b: Transaction) {
    a.date >= b.date
  }

  lemma DateDescendingIsTotalPreorder()
    ensures TotalPreorder(DateDescending)
  {
  }

  /** The label a transaction is grouped under. */
  function DateKey(c: Clock): Transaction -> string {
    (t: Transaction) => FormatTransactionDate(c, t.date)
  }

  /** Membership test of the group labelled `k`. */
  function HasKey(keyOf: Transaction -> string, k: string): Transaction -> bool {
    (t: Transaction) => keyOf(t) == k
  }

  /** `grouped[k] || []`: the transactions listed under label `k`. */
  function GroupOf(grouped: map<string, seq<Transaction>>, k: string): seq<Transaction> {
    if k in grouped then grouped[k] else []
  }

  /**
   * `grouped` and `order` are the record built from `prefix`: each label
   * seen so far holds its transactions in `prefix` order, and the labels
   * are listed once each, in order of first appearance.
   */
  ghost predicate GroupsOf(grouped: map<string, seq<Transaction>>, order: seq<string>,
                           prefix: seq<Transaction>, keyOf: Transaction -> string)
  {
    && (forall k :: GroupOf(grouped, k) == Filter(prefix, HasKey(keyOf, k)))
    && (forall k :: k in grouped ==> grouped[k] != [])
    && (forall k :: k in order <==> k in grouped)
    && (forall a, b :: 0 <= a < b < |order| ==> order[a] != order[b])
    && (forall a, b :: 0 <= a < b < |order| ==>
          grouped[order[a]][0].date >= grouped[order[b]][0].date)
  }

  /** Extending the input by `s[i]` extends exactly the group of `s[i]`'s label. */
  lemma GroupsExtend(s: seq<Transaction>, i: nat, keyOf: Transaction -> string)
    requires i < |s|
    ensures forall k :: Filter(s[..i + 1], HasKey(keyOf, k))
                        == Filter(s[..i], HasKey(keyOf, k)) + (if k == keyOf(s[i]) then [s[i]] else [])
  {
    assert s[..i + 1] == s[..i] + [s[i]];
    forall k ensures Filter(s[..i + 1], HasKey(keyOf, k))
                     == Filter(s[..i], HasKey(keyOf, k)) + (if k == keyOf(s[i]) then [s[i]] else [])
    {
      FilterSnoc(s[..i], s[i], HasKey(keyOf, k));
    }
  }

  /** One `forEach` step whose label already has a list: `s[i]` is pushed onto it. */
  lemma GroupPushExisting(grouped: map<string, seq<Transaction>>, order: seq<string>,
                          s: seq<Transaction>, i: nat, keyOf: Transaction -> string)
    requires i < |s| && keyOf(s[i]) in grouped
    requires GroupsOf(grouped, order, s[..i], keyOf)
    ensures GroupsOf(grouped[keyOf(s[i]) := grouped[keyOf(s[i])] + [s[i]]], order, s[..i + 1], keyOf)
  {
    var key := keyOf(s[i]);
    var g: map<string, seq<Transaction>> := grouped[key := grouped[key] + [s[i]]];
    GroupsExtend(s, i, keyOf);
    forall a, b | 0 <= a < b < |order| ensures g[order[a]][0].date >= g[order[b]][0].date {
      assert g[order[a]][0] == grouped[order[a]][0];
      assert g[order[b]][0] == grouped[order[b]][0];
    }
  }

  /** Listing a new label last keeps the labels distinct. */
  lemma AppendLabelDistinct(order: seq<string>, key: string)
    requires forall a, b :: 0 <= a < b < |order| ==> order[a] != order[b]
    requires key !in order
    ensures forall a, b :: 0 <= a < b < |order + [key]| ==> (order + [key])[a] != (order + [key])[b]
  {
  }

  /** A new group opened by `s[i]` is no newer than any group opened before it. */
  lemma AppendGroupNewestFirst(grouped: map<string, seq<Transaction>>, order: seq<string>,
                               s: seq<Transaction>, i: nat, keyOf: Transaction -> string)
    requires i < |s| && keyOf(s[i]) !in grouped
    requires forall k :: GroupOf(grouped, k) == Filter(s[..i], HasKey(keyOf, k))
    requires forall k :: k in grouped ==> grouped[k] != []
    requires forall k :: k in order ==> k in grouped
    requires forall a, b :: 0 <= a < b < |order| ==> grouped[order[a]][0].date >= grouped[order[b]][0].date
    requires forall x :: x in s[..i] ==> x.date >= s[i].date
    ensures var g, o := grouped[keyOf(s[i]) := [s[i]]], order + [keyOf(s[i])];
            forall a, b :: 0 <= a < b < |o| ==> g[o[a]][0].date >= g[o[b]][0].date
  {
    var key := keyOf(s[i]);
    var g: map<string, seq<Transaction>>, o: seq<string> := grouped[key := [s[i]]], order + [key];
    forall a, b | 0 <= a < b < |o| ensures g[o[a]][0].date >= g[o[b]][0].date {
      assert o[a] == order[a] && order[a] in grouped && order[a] != key;
      assert g[o[a]][0] == grouped[order[a]][0];
      if b < |order| {
        assert o[b] == order[b] && order[b] in grouped && order[b] != key;
      } else {
        assert GroupOf(grouped, order[a]) == grouped[order[a]];
        FilterMembers(s[..i], HasKey(keyOf, order[a]), grouped[order[a]][0]);
      }
    }
  }

  /**
   * One `forEach` step whose label is new: the list `[s[i]]` is created and
   * the label is listed last. Its first transaction is no newer than the
   * first of any earlier group, because the input is sorted newest first.
   */
  lemma GroupPushNew(grouped: map<string, seq<Transaction>>, order: seq<string>,
                     s: seq<Transaction>, i: nat, keyOf: Transaction -> string)
    requires i < |s| && keyOf(s[i]) !in grouped
    requires GroupsOf(grouped, order, s[..i], keyOf)
    requires forall x :: x in s[..i] ==> x.date >= s[i].date
    ensures GroupsOf(grouped[keyOf(s[i]) := [s[i]]], order + [keyOf(s[i])], s[..i + 1], keyOf)
  {
    var key := keyOf(s[i]);
    var g: map<string, seq<Transaction>>, o: seq<string> := grouped[key := [s[i]]], order + [key];
    GroupsExtend(s, i, keyOf);
    forall k ensures GroupOf(g, k) == Filter(s[..i + 1], HasKey(keyOf, k)) {
      if k == key {
        assert Filter(s[..i], HasKey(keyOf, key)) == GroupOf(grouped, key) == [];
      } else {
        assert GroupOf(g, k) == GroupOf(grouped, k);
      }
    }
    AppendLabelDistinct(order, key);
    AppendGroupNewestFirst(grouped, order, s, i, keyOf);
    assert forall k :: k in g ==> g[k] != [];
    assert forall k :: k in o <==> k in g;
  }

  /**
   * The `forEach` of groupTransactionsByDate over the sorted copy: pushes
   * each transaction onto the list under its label, creating the list on
   * first sight. `order` is the order in which labels were first inserted,
   * which is the order the returned record lists them in.
   */
  method PushAllByKey(sorted: seq<Transaction>, keyOf: Transaction -> string)
    returns (grouped: map<string, seq<Transaction>>, order: seq<string>)
    requires Sorted(sorted, DateDescending)
    ensures GroupsOf(grouped, order, sorted, keyOf)
  {
    grouped, order := map[], [];
    var i := 0;
    assert sorted[..0] == [];
    while i < |sorted|
      invariant 0 <= i <= |sorted|
      invariant GroupsOf(grouped, order, sorted[..i], keyOf)
    {
      var tx := sorted[i];
      var key := keyOf(tx);
      if key !in grouped {
        SortedPrefixBound(sorted, DateDescending, i);
        GroupPushNew(grouped, order, sorted, i, keyOf);
        grouped := grouped[key := [tx]];
        order := order + [key];
      } else {
        GroupPushExisting(grouped, order, sorted, i, keyOf);
        grouped := grouped[key := grouped[key] + [tx]];
      }
      i := i + 1;
    }
    assert sorted[..i] == sorted;
  }

  /**
   * groupTransactionsByDate: sorts a copy newest first and groups it under
   * the date labels. Every transaction lands in the group of its label,
   * each group keeps the sorted order, no group is empty, and the labels
   * are listed once each, the group with the newest transaction first.
   */
  method GroupTransactionsByDate(txs: seq<Transaction>, c: Clock)
    returns (grouped: map<string, seq<Transaction>>, order: seq<string>)
    ensures forall k :: k in grouped ==> grouped[k] == Filter(SortBy(txs, DateDescending), HasKey(DateKey(c), k))
    ensures forall k :: k in grouped ==> grouped[k] != []
    ensures forall t :: t in txs ==> DateKey(c)(t) in grouped
    ensures forall k :: k in order <==> k in grouped
    ensures forall a, b :: 0 <= a < b < |order| ==> order[a] != order[b]
    ensures forall a, b :: 0 <= a < b < |order| ==>
              grouped[order[a]][0].date >= grouped[order[b]][0].date
  {
    var sorted := SortBy(txs, DateDescending);
    assert Sorted(sorted, DateDescending) by {
      DateDescendingIsTotalPreorder();
      SortBySorted(txs, DateDescending);
    }
    grouped, order := PushAllByKey(sorted, DateKey(c));
    forall t | t in txs ensures DateKey(c)(t) in grouped {
      assert t in multiset(sorted);
      FilterMembers(sorted, HasKey(DateKey(c), DateKey(c)(t)), t);
    }
  }

  /** Each group lists its transactions newest first. */
  lemma GroupIsNewestFirst(txs: seq<Transaction>, c: Clock, k: string)
    ensures Sorted(Filter(SortBy(txs, DateDescending), HasKey(DateKey(c), k)), DateDescending)
  {
    DateDescendingIsTotalPreorder();
    SortBySorted(txs, DateDescending);
    FilterSorted(SortBy(txs, DateDescending), DateDescending, HasKey(DateKey(c), k));
  }

  /** Each group holds exactly the input's transactions that carry its keyOf. */
  lemma GroupIsPermutationOfLabelled(txs: seq<Transaction>, c: Clock, k: string)
    ensures multiset(Filter(SortBy(txs, DateDescending), HasKey(DateKey(c), k)))
         == multiset(Filter(txs, HasKey(DateKey(c), k)))
  {
    FilterPermutation(SortBy(txs, DateDescending), txs, HasKey(DateKey(c), k));
  }

  // ---- colours ----

  /** PRESET_COLORS, in its declaration order. */
  const PresetColors: seq<(string, string)> := [
    ("indigo", "#6366f1"),
    ("blue", "#3b82f6"),
    ("green", "#10b981"),
    ("red", "#ef4444"),
    ("amber", "#f59e0b"),
    ("purple", "#a855f7"),
    ("pink", "#ec4899"),
    ("cyan", "#06b6d4")
  ]

  /** `Object.entries(entries).find(([_, color]) => color === hex)`, then its name or "custom". */
  function ColorNameIn(entries: seq<(string, string)>, hex: string): (r: string)
    ensures (forall i :: 0 <= i < |entries| ==> entries[i].1 != hex) ==> r == "custom"
    ensures forall i :: 0 <= i < |entries| && entries[i].1 == hex ==>
              (forall j :: 0 <= j < i ==> entries[j].1 != hex) ==> r == entries[i].0
  {
    if entries == [] then "custom"
    else if entries[0].1 == hex then entries[0].0
    else
      var r := ColorNameIn(entries[1..], hex);
      assert forall i :: 1 <= i < |entries| ==> entries[i] == entries[1..][i - 1];
      r
  }

  function GetColorName(hex: string): (r: string)
    ensures (forall i :: 0 <= i < |PresetColors| ==> PresetColors[i].1 != hex) ==> r == "custom"
  {
    ColorNameIn(PresetColors, hex)
  }

  /** The preset values are pairwise distinct, so each is named by its own entry. */
  lemma PresetColorNamed(i: nat)
    requires i < |PresetColors|
    ensures GetColorName(PresetColors[i].1) == PresetColors[i].0
    ensures GetColorName(PresetColors[i].1) != "custom"
  {
    var hex := PresetColors[i].1;
    forall j | 0 <= j < i ensures PresetColors[j].1 != hex {
      assert PresetColors[j].1[1] != hex[1] || PresetColors[j].1[2] != hex[2];
    }
  }
}
