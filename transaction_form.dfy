/**
 * The transaction dialog: its field state, the prefill for an edit and the
 * defaults for a new entry, the validator, the construction of the
 * transaction data (which fixes the sign convention every total relies on)
 * and the submit that calls the transactions hook.
 *
 * The date field holds a `YYYY-MM-DD` string; the model keeps the day
 * number it denotes (days since 1970-01-01, UTC), since both reading it
 * (`toISOString().split('T')[0]`) and parsing it (`new Date(date)`) work in UTC.
 */
module TransactionForm {
  import opened Types
  import opened Text
  import opened Lists
  import opened Store
  import opened Hooks

  /** The amount field: the text typed into the number input, or the number an edit put there. */
  datatype AmountField = Typed(text: string) | Prefilled(n: Money)

  /** `!amount`: the empty text or the number 0. */
  predicate AmountMissing(a: AmountField) {
    match a
    case Typed(text) => text == ""
    case Prefilled(n) => n == 0.0
  }

  /** `parseFloat(amount.toString())`, where `parse` reads the number input's text. */
  function ParsedAmount(a: AmountField, parse: string -> Money): Money {
    match a
    case Typed(text) => parse(text)
    case Prefilled(n) => n
  }

  /** The UTC day of an instant: `toISOString().split('T')[0]`. */
  function UtcDay(d: Timestamp): int {
    d / DayMillis
  }

  /** `new Date("YYYY-MM-DD")`: midnight UTC of that day. */
  function UtcMidnight(day: int): Timestamp {
    day * DayMillis
  }

  /** Reading the date field back gives the instant's own UTC day, at its midnight. */
  lemma UtcMidnightOfDay(d: Timestamp)
    ensures UtcMidnight(UtcDay(d)) <= d < UtcMidnight(UtcDay(d)) + DayMillis
    ensures UtcDay(UtcMidnight(UtcDay(d))) == UtcDay(d)
    ensures UtcMidnight(UtcDay(d)) == d <==> d % DayMillis == 0
  {
  }

  datatype Fields = Fields(
    kind: TxType,
    title: string,
    amount: AmountField,
    walletId: string,
    categoryId: string,
    day: int,
    notes: string)

  /** The fields filled from the transaction being edited. */
  function Prefill(t: Transaction): Fields {
    Fields(t.kind, t.title, Prefilled(Abs(t.amount)), t.walletId, t.categoryId.GetOr(""),
           UtcDay(t.date), t.notes.GetOr(""))
  }

  /** The fields of a new entry: an expense, in the first wallet if there is one, dated today. */
  function Defaults(wallets: seq<Wallet>, now: Timestamp): Fields {
    Fields(Expense, "", Typed(""), if |wallets| > 0 then wallets[0].id else "", "", UtcDay(now), "")
  }

  /** What the validator accepts. */
  predicate Valid(f: Fields, parse: string -> Money) {
    && !Blank(f.title)
    && f.amount != Typed("")
    && ParsedAmount(f.amount, parse) > 0.0
    && f.walletId != ""
    && (f.kind.Transfer? || f.categoryId != "")
  }

  /** The fields of a new entry never pass validation: the title is still empty. */
  lemma DefaultsAreInvalid(wallets: seq<Wallet>, now: Timestamp, parse: string -> Money)
    ensures !Valid(Defaults(wallets, now), parse)
  {
  }

  /** `transactionData`: the record the form submits, without id and creation time. */
  function TransactionData(f: Fields, accountId: string, parse: string -> Money): TransactionInput {
    var a := ParsedAmount(f.amount, parse);
    TransactionInput(
      accountId, f.walletId, f.kind, f.title,
      if f.kind.Expense? then -Abs(a) else a,
      UtcMidnight(f.day),
      if !f.kind.Transfer? then Some(f.categoryId) else None,
      if f.notes == "" then None else Some(f.notes),
      None)
  }

  /**
   * The updates passed to updateTransaction: every key of `transactionData`,
   * including `categoryId` and `notes` when they are undefined; `transferId`
   * is not among them, so an edit keeps it.
   */
  function DataPatch(d: TransactionInput): TransactionPatch {
    TransactionPatch(None, Some(d.accountId), Some(d.walletId), Some(d.kind), Some(d.title),
                     Some(d.amount), Some(d.date), Some(d.categoryId), Some(d.notes), None, None)
  }

  /**
   * The sign rule: a validated expense is stored as a negative amount, a
   * validated income or transfer as a positive one, always of the entered size.
   */
  lemma DataAmountSign(f: Fields, accountId: string, parse: string -> Money)
    requires Valid(f, parse)
    ensures var d := TransactionData(f, accountId, parse);
            && (f.kind.Expense? ==> d.amount < 0.0)
            && (!f.kind.Expense? ==> d.amount > 0.0)
            && Abs(d.amount) == ParsedAmount(f.amount, parse)
            && SignAgrees(NewTransaction(d, "", 0))
  {
  }

  /** A transfer carries no category; empty notes are stored as absent. */
  lemma DataOptionalFields(f: Fields, accountId: string, parse: string -> Money)
    ensures var d := TransactionData(f, accountId, parse);
            && (d.categoryId.None? <==> f.kind.Transfer?)
            && (d.notes.None? <==> f.notes == "")
            && (d.notes.Some? ==> d.notes.value == f.notes)
  {
  }

  /**
   * Opening an edit and saving it unchanged gives back the same transaction,
   * except that its date moves to midnight UTC of its day, empty notes
   * become absent, and a missing category of a non-transfer becomes "".
   * The amount survives because the form shows its size and the type puts
   * the sign back.
   */
  lemma ResubmitUnchangedEdit(t: Transaction, parse: string -> Money)
    requires SignAgrees(t) && (t.kind.Transfer? ==> t.amount >= 0.0)
    ensures var d := TransactionData(Prefill(t), t.accountId, parse);
            MergeTransaction(t, DataPatch(d))
            == t.(date := UtcMidnight(UtcDay(t.date)),
                  notes := if t.notes == Some("") then None else t.notes,
                  categoryId := if t.kind.Transfer? then None else Some(t.categoryId.GetOr("")))
  {
  }

  /**
   * A transfer stored with a negative amount (money out) does not survive
   * an unchanged edit: the form shows its size, and a transfer is saved as
   * entered, so the resubmitted amount is positive.
   */
  lemma ResubmitFlipsOutgoingTransfer(t: Transaction, parse: string -> Money)
    requires t.kind.Transfer? && t.amount < 0.0
    ensures var d := TransactionData(Prefill(t), t.accountId, parse);
            && MergeTransaction(t, DataPatch(d)).amount == -t.amount
            && MergeTransaction(t, DataPatch(d)).amount > 0.0
  {
  }

  /** Which hook call a submit makes. */
  datatype SubmitCall =
    | NoCall
    | CallAdd(data: TransactionInput)
    | CallUpdate(id: string, updates: TransactionPatch)

  const TitleRequired := "Title is required"
  const AmountNotPositive := "Amount must be greater than 0"
  const WalletRequired := "Wallet is required"
  const CategoryRequired := "Category is required"
  const SubmitFailed := "Failed to save transaction"

  /** The keys of the form's `errors` record: the field a message belongs to, or the submit itself. */
  datatype ErrorKey = TitleKey | AmountKey | WalletIdKey | CategoryIdKey | SubmitKey

  class Form {
    var kind: TxType
    var title: string
    var amount: AmountField
    var walletId: string
    var categoryId: string
    var day: int
    var notes: string
    var errors: map<ErrorKey, string>
    var loading: bool

    function Current(): Fields
      reads this
    {
      Fields(kind, title, amount, walletId, categoryId, day, notes)
    }

    /** The initial state of the component. */
    constructor (now: Timestamp)
      ensures Current() == Fields(Expense, "", Typed(""), "", "", UtcDay(now), "")
      ensures errors == map[] && !loading
    {
      kind, title, amount, walletId, categoryId := Expense, "", Typed(""), "", "";
      day, notes, errors, loading := UtcDay(now), "", map[], false;
    }

    /** The effect that runs when the dialog opens, with or without a transaction to edit. */
    method Open(edit: Option<Transaction>, wallets: seq<Wallet>, now: Timestamp)
      modifies this`kind, this`title, this`amount, this`walletId, this`categoryId, this`day, this`notes, this`errors
      ensures Current() == if edit.Some? then Prefill(edit.value) else Defaults(wallets, now)
      ensures errors == map[]
    {
      if edit.Some? {
        var t := edit.value;
        kind := t.kind;
        title := t.title;
        amount := Prefilled(Abs(t.amount));
        walletId := t.walletId;
        categoryId := t.categoryId.GetOr("");
        day := UtcDay(t.date);
        notes := t.notes.GetOr("");
      } else {
        kind := Expense;
        title := "";
        amount := Typed("");
        walletId := if |wallets| > 0 then wallets[0].id else "";
        categoryId := "";
        day := UtcDay(now);
        notes := "";
      }
      errors := map[];
    }

    /** `validate`: records one message per failing field and accepts when there is none. */
    method Validate(parse: string -> Money) returns (valid: bool)
      modifies this`errors
      ensures valid <==> Valid(Current(), parse)
      ensures valid <==> errors == map[]
      ensures TitleKey in errors <==> Blank(title)
      ensures AmountKey in errors <==> AmountMissing(amount) || ParsedAmount(amount, parse) <= 0.0
      ensures WalletIdKey in errors <==> walletId == ""
      ensures CategoryIdKey in errors <==> !kind.Transfer? && categoryId == ""
      ensures errors.Keys <= {TitleKey, AmountKey, WalletIdKey, CategoryIdKey}
      ensures TitleKey in errors ==> errors[TitleKey] == TitleRequired
      ensures AmountKey in errors ==> errors[AmountKey] == AmountNotPositive
      ensures WalletIdKey in errors ==> errors[WalletIdKey] == WalletRequired
      ensures CategoryIdKey in errors ==> errors[CategoryIdKey] == CategoryRequired
    {
      var titleMissing := TrimsToEmpty(title);
      var newErrors: map<ErrorKey, string> := map[];
      if titleMissing {
        newErrors := newErrors[TitleKey := TitleRequired];
      }
      if AmountMissing(amount) || ParsedAmount(amount, parse) <= 0.0 {
        newErrors := newErrors[AmountKey := AmountNotPositive];
      }
      if walletId == "" {
        newErrors := newErrors[WalletIdKey := WalletRequired];
      }
      if !kind.Transfer? && categoryId == "" {
        newErrors := newErrors[CategoryIdKey := CategoryRequired];
      }
      errors := newErrors;
      // `Object.keys(newErrors).length === 0`
      valid := newErrors.Keys == {};
      assert valid <==> !(TitleKey in newErrors || AmountKey in newErrors
                          || WalletIdKey in newErrors || CategoryIdKey in newErrors);
    }

    /**
     * `handleSubmit`: nothing is saved unless the fields validate and an
     * account is selected; an edit updates the edited transaction, anything
     * else adds a new one.
     */
    method HandleSubmit(accountId: Option<string>, edit: Option<Transaction>, parse: string -> Money,
                        hook: TransactionsHook, id: string, now: Timestamp)
      returns (call: SubmitCall, saved: bool)
      requires hook.db.Valid()
      modifies this`errors, this`loading
      modifies hook`transactions, hook`error, hook`signals, hook.db`transactions
      ensures hook.db.Valid() && hook.db.wallets == old(hook.db.wallets)
      ensures var data := TransactionData(Current(), if accountId.Some? then accountId.value else "", parse);
              call == if !Valid(Current(), parse) || !Selected(accountId) then NoCall
                      else if edit.Some? then CallUpdate(edit.value.id, DataPatch(data))
                      else CallAdd(data)
      ensures call == NoCall ==>
                && !saved && loading == old(loading)
                && hook.transactions == old(hook.transactions) && hook.signals == old(hook.signals)
                && hook.db.transactions == old(hook.db.transactions)
      ensures call != NoCall ==> !loading && errors == if saved then map[] else map[SubmitKey := SubmitFailed]
      ensures saved <==> call != NoCall && hook.signals == old(hook.signals) + 1
      ensures !saved ==> hook.db.transactions == old(hook.db.transactions) && hook.signals == old(hook.signals)
      ensures call.CallAdd? && saved ==>
                hook.db.transactions == old(hook.db.transactions)[id := NewTransaction(call.data, id, now)]
      ensures call.CallUpdate? && saved ==>
                var found := FindById(old(hook.transactions), TransactionKey, call.id);
                && found.Some?
                && hook.db.transactions == old(hook.db.transactions)[call.id := MergeTransaction(found.value, call.updates)]
    {
      var valid := Validate(parse);
      if !valid || !Selected(accountId) {
        return NoCall, false;
      }
      loading := true;
      var data := TransactionData(Current(), accountId.value, parse);
      call := if edit.Some? then CallUpdate(edit.value.id, DataPatch(data)) else CallAdd(data);
      saved := Save(call, hook, id, now);
      loading := false;
    }

    /**
     * The `try` block of `handleSubmit`: the hook call, then either closing
     * the dialog (no messages) or the "submit" message.
     */
    method Save(call: SubmitCall, hook: TransactionsHook, id: string, now: Timestamp) returns (saved: bool)
      requires call != NoCall && hook.db.Valid()
      modifies this`errors, hook`transactions, hook`error, hook`signals, hook.db`transactions
      ensures hook.db.Valid() && hook.db.wallets == old(hook.db.wallets)
      ensures errors == if saved then map[] else map[SubmitKey := SubmitFailed]
      ensures saved <==> hook.signals == old(hook.signals) + 1
      ensures !saved ==> hook.db.transactions == old(hook.db.transactions) && hook.signals == old(hook.signals)
      ensures call.CallAdd? && saved ==>
                hook.db.transactions == old(hook.db.transactions)[id := NewTransaction(call.data, id, now)]
      ensures call.CallUpdate? && saved ==>
                var found := FindById(old(hook.transactions), TransactionKey, call.id);
                && found.Some?
                && var updated := MergeTransaction(found.value, call.updates);
                hook.db.transactions == old(hook.db.transactions)[updated.id := updated]
    {
      if call.CallUpdate? {
        var r := hook.UpdateTransaction(call.id, call.updates);
        saved := r.Ok?;
      } else {
        var r := hook.AddTransaction(call.data, id, now);
        saved := r.Ok?;
      }
      if saved {
        errors := map[];
      } else {
        errors := map[SubmitKey := SubmitFailed];
      }
    }
  }
}
