/**
 * How one transaction is shown in a list: whether it counts as money in or
 * money out, the class and sign put in front of its amount, and the size
 * shown (`formatCurrency` itself is not modelled).
 */
module TransactionItem {
  import opened Types

  /** `isIncome`: an income, or a transfer that brought money in. */
  predicate IsIncome(t: Transaction) {
    t.kind.Income? || (t.kind.Transfer? && t.amount > 0.0)
  }

  /** `isExpense`: an expense, or a transfer that took money out. */
  predicate IsExpense(t: Transaction) {
    t.kind.Expense? || (t.kind.Transfer? && t.amount < 0.0)
  }

  /** The class on the amount: "income", "expense" or none. */
  function AmountClass(t: Transaction): string {
    if IsIncome(t) then "income" else if IsExpense(t) then "expense" else ""
  }

  /** `{isIncome && '+'}{isExpense && '-'}`: `false` renders as nothing. */
  function SignPrefix(t: Transaction): string {
    (if IsIncome(t) then "+" else "") + (if IsExpense(t) then "-" else "")
  }

  /** The number handed to `formatCurrency`. */
  function ShownMagnitude(t: Transaction): Money {
    Abs(t.amount)
  }

  /** No transaction is shown as both money in and money out. */
  lemma NeverBoth(t: Transaction)
    ensures !(IsIncome(t) && IsExpense(t))
  {
  }

  /** The sign and the class always agree, and a transfer of zero gets neither. */
  lemma PrefixMatchesClass(t: Transaction)
    ensures SignPrefix(t) == "+" <==> AmountClass(t) == "income"
    ensures SignPrefix(t) == "-" <==> AmountClass(t) == "expense"
    ensures SignPrefix(t) == "" <==> AmountClass(t) == ""
    ensures SignPrefix(t) == "" <==> t.kind.Transfer? && t.amount == 0.0
  {
    NeverBoth(t);
    if IsIncome(t) {
      assert SignPrefix(t) == "+";
    } else if IsExpense(t) {
      assert SignPrefix(t) == "-";
    } else {
      assert SignPrefix(t) == "";
    }
  }

  /**
   * For a transaction stored by the form's sign rule, the sign shown in
   * front of the magnitude gives back the stored amount.
   */
  lemma ShownValueIsAmount(t: Transaction)
    requires SignAgrees(t)
    ensures (if SignPrefix(t) == "-" then -ShownMagnitude(t) else ShownMagnitude(t)) == t.amount
  {
    PrefixMatchesClass(t);
  }

  /** Under the sign rule, a non-zero amount is money in exactly when it is positive. */
  lemma ClassFollowsSign(t: Transaction)
    requires SignAgrees(t) && t.amount != 0.0
    ensures IsIncome(t) <==> t.amount > 0.0
    ensures IsExpense(t) <==> t.amount < 0.0
  {
  }
}
