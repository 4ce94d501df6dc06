/** The balance ledger held by the wallet's view model: one balance and one
    guarded mutating operation, `withdraw`. Amounts are exact decimals
    (`real`) rather than binary floating point. */
module Ledger {

  /** The balance every run of the app starts with. */
  const InitialBalance: real := 10000.0

  /** The view model's observable state. */
  datatype Account = Account(balance: real)

  /** The `Boolean` that `withdraw` reports, paired with the account it leaves. */
  datatype Withdrawal = Withdrawal(ok: bool, account: Account)

  /** The account a fresh view model holds. */
  function Opening(): (a: Account)
    ensures a.balance == 10000.0
  {
    Account(InitialBalance)
  }

  /** `withdraw(amount)`: refuse a non-positive amount, then refuse an amount
      above the balance, otherwise take the amount off the balance. */
  function Withdraw(a: Account, amount: real): (r: Withdrawal)
    ensures r.ok <==> 0.0 < amount <= a.balance
    ensures r.ok ==> r.account.balance == a.balance - amount
    ensures !r.ok ==> r.account == a
  {
    if amount <= 0.0 then Withdrawal(false, a)
    else if amount > a.balance then Withdrawal(false, a)
    else
      var after := a.balance - amount;
      Withdrawal(true, Account(after))
  }

  /** A non-positive amount is refused and the balance stays. */
  lemma NonPositiveRefused(a: Account, amount: real)
    requires amount <= 0.0
    ensures Withdraw(a, amount) == Withdrawal(false, a)
  {
  }

  /** An amount above the balance is refused and the balance stays. */
  lemma OverdraftRefused(a: Account, amount: real)
    requires amount > a.balance
    ensures Withdraw(a, amount) == Withdrawal(false, a)
  {
  }

  /** Withdrawing the whole balance succeeds and leaves zero. */
  lemma WithdrawEverything(a: Account)
    requires a.balance > 0.0
    ensures Withdraw(a, a.balance) == Withdrawal(true, Account(0.0))
  {
  }

  /** The ledger invariant: a balance that is not negative stays so, and it
      never grows. */
  lemma WithdrawKeepsBalance(a: Account, amount: real)
    requires a.balance >= 0.0
    ensures 0.0 <= Withdraw(a, amount).account.balance <= a.balance
  {
  }
}
