/**
 * The wallets page of one account: an icon per wallet type, the colour
 * class on a balance, and the account total above the list.
 */
module WalletsPage {
  import opened Types
  import opened Lists
  import opened Helpers

  /** `getWalletIcon`: banknote, bank, card, and a purse for any other type. */
  function WalletIcon(kind: WalletType): string {
    match kind
    case Cash => "\U{1F4B5}"
    case Bank => "\U{1F3E6}"
    case Card => "\U{1F4B3}"
    case _ => "\U{1F45B}"
  }

  /** Each wallet type has its own icon, so the icon tells the type apart. */
  lemma WalletIconIdentifiesType(a: WalletType, b: WalletType)
    ensures WalletIcon(a) == WalletIcon(b) <==> a == b
  {
    if a != b {
      assert WalletIcon(a)[0] != WalletIcon(b)[0];
    }
  }

  /** The class on a wallet's balance: "positive" from zero up, "negative" below. */
  function BalanceClass(balance: Money): (r: string)
    ensures r == "positive" <==> balance >= 0.0
    ensures r == "negative" <==> balance < 0.0
  {
    if balance >= 0.0 then "positive" else "negative"
  }

  /** `totalBalance` is the sum of the listed wallets' balances, and zero for an account without wallets. */
  lemma TotalBalanceIsWalletSum(ws: seq<Wallet>)
    ensures CalculateAccountBalance(ws) == Sum(ws, BalanceOf)
    ensures ws == [] ==> CalculateAccountBalance(ws) == 0.0
  {
    AccountBalanceIsSum(ws);
  }
}
