/** `withdraw` over the IEEE-754 values its `Double` parameter can hold, so as
    to follow a not-a-number amount (the parser turns the text "NaN" into
    one) through the two guards. Finite values are exact reals here; the
    rounding of finite subtraction is not modelled. */
module DoubleLedger {
  import Ledger

  datatype Double = Finite(value: real) | PositiveInfinity | NegativeInfinity | NaN

  /** IEEE `<`: false whenever either side is NaN. */
  predicate Less(x: Double, y: Double) {
    match (x, y)
    case (NaN, _) => false
    case (_, NaN) => false
    case (Finite(a), Finite(b)) => a < b
    case (NegativeInfinity, _) => y != NegativeInfinity
    case (_, PositiveInfinity) => x != PositiveInfinity
    case (_, _) => false
  }

  /** IEEE `<=`: also false whenever either side is NaN. */
  predicate AtMost(x: Double, y: Double) {
    Less(x, y) || (x == y && x != NaN)
  }

  /** IEEE subtraction, exact on finite operands. */
  function Minus(x: Double, y: Double): Double {
    match (x, y)
    case (NaN, _) => NaN
    case (_, NaN) => NaN
    case (Finite(a), Finite(b)) => Finite(a - b)
    case (PositiveInfinity, PositiveInfinity) => NaN
    case (NegativeInfinity, NegativeInfinity) => NaN
    case (PositiveInfinity, _) => PositiveInfinity
    case (NegativeInfinity, _) => NegativeInfinity
    case (Finite(_), PositiveInfinity) => NegativeInfinity
    case (Finite(_), NegativeInfinity) => PositiveInfinity
  }

  const Zero: Double := Finite(0.0)

  /** The flag `withdraw` reports, paired with the balance it leaves. */
  datatype Withdrawal = Withdrawal(ok: bool, balance: Double)

  /** A balance the ledger invariant allows: a finite value that is not negative. */
  predicate Sound(balance: Double) {
    balance.Finite? && balance.value >= 0.0
  }

  /** `withdraw` as written: `amount <= 0` refuses, `amount > balance`
      refuses, anything else is subtracted. */
  function WithdrawAsWritten(balance: Double, amount: Double): Withdrawal {
    if AtMost(amount, Zero) then Withdrawal(false, balance)
    else if Less(balance, amount) then Withdrawal(false, balance)
    else Withdrawal(true, Minus(balance, amount))
  }

  /** The discrepancy: a NaN amount passes both guards, the withdrawal is
      reported as successful, and the balance becomes NaN, so the ledger
      invariant is lost from the opening balance on. */
  lemma NaNWithdrawalCorruptsBalance()
    ensures Sound(Finite(Ledger.InitialBalance))
    ensures WithdrawAsWritten(Finite(Ledger.InitialBalance), NaN) == Withdrawal(true, NaN)
    ensures !Sound(WithdrawAsWritten(Finite(Ledger.InitialBalance), NaN).balance)
  {
  }

  /** `withdraw` with both guards stated positively, `amount > 0` and
      `amount <= balance`, so that a comparison with NaN refuses instead of
      letting the amount through. */
  function WithdrawChecked(balance: Double, amount: Double): (r: Withdrawal)
    ensures r.ok <==> Less(Zero, amount) && AtMost(amount, balance)
    ensures r.ok && balance.Finite? ==> amount.Finite?
    ensures !r.ok ==> r.balance == balance
  {
    if !Less(Zero, amount) then Withdrawal(false, balance)
    else if !AtMost(amount, balance) then Withdrawal(false, balance)
    else Withdrawal(true, Minus(balance, amount))
  }

  /** The intended invariant holds of the checked version for every amount,
      NaN and the infinities included: a sound balance stays sound. */
  lemma CheckedKeepsBalanceSound(balance: Double, amount: Double)
    requires Sound(balance)
    ensures Sound(WithdrawChecked(balance, amount).balance)
  {
  }

  /** On finite values the checked version is exactly the exact-decimal
      ledger's `Withdraw`, which the rest of the model uses. */
  lemma CheckedIsLedgerWithdraw(balance: real, amount: real)
    ensures WithdrawChecked(Finite(balance), Finite(amount)).ok
         == Ledger.Withdraw(Ledger.Account(balance), amount).ok
    ensures WithdrawChecked(Finite(balance), Finite(amount)).balance
         == Finite(Ledger.Withdraw(Ledger.Account(balance), amount).account.balance)
  {
  }

  /** On finite values the code as written agrees with the checked version:
      the two differ only on NaN. */
  lemma AsWrittenAgreesOnNumbers(balance: Double, amount: Double)
    requires amount != NaN && balance != NaN
    ensures WithdrawAsWritten(balance, amount) == WithdrawChecked(balance, amount)
  {
  }
}
