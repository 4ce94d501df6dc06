/** The withdrawal flow of the wallet screen and the navigation around it:
    the app state is the ledger, the text field, the error line and the
    current route; every user action is a pure transition on it. The number
    parser is a parameter (`Parser`), because the platform's
    `toDoubleOrNull` grammar is not part of this model. */
module Flow {
  import opened Wrappers
  import opened Text
  import opened Ledger

  /** Parses a normalized amount, `None` when the text is not a number. */
  type Parser = string -> Option<real>

  const InvalidNumber: string := "Ingresá un número válido."
  const NotPositive: string := "El monto debe ser mayor a 0."
  const Insufficient: string := "Saldo insuficiente."

  /** The two destinations of the navigation host; the receipt carries the
      withdrawn amount. */
  datatype Route = Wallet | Receipt(amount: real)

  /** Everything the two screens observe. */
  datatype App = App(account: Account, input: string, error: Option<string>, route: Route)

  /** The user actions: typing into the field, pressing the withdraw button,
      the keyboard's "done" action, and the receipt's return button. */
  datatype Event = Edit(text: string) | Press | Done | Back

  /** The app on launch: the opening balance, an empty field, no error, on
      the wallet screen. */
  function Initial(): (s: App)
    ensures s.account.balance == InitialBalance && s.route == Wallet
    ensures s.input == "" && s.error == None
  {
    App(Opening(), "", None, Wallet)
  }

  /** The amount a submit would work with: the field with commas turned into
      dots, handed to the parser. */
  function ParseAmount(parse: Parser, input: string): Option<real> {
    parse(Normalize(input))
  }

  /** `tryWithdraw`: parse, and on a number ask the ledger. A parse failure
      never reaches the ledger; a refusal keeps the field and explains itself;
      a success clears the field and the error and opens the receipt. */
  function Submit(parse: Parser, s: App): (r: App)
    ensures ParseAmount(parse, s.input) == None ==>
              r == s.(error := Some(InvalidNumber))
    ensures forall a :: ParseAmount(parse, s.input) == Some(a) && a <= 0.0 ==>
              r == s.(error := Some(NotPositive))
    ensures forall a :: ParseAmount(parse, s.input) == Some(a) && 0.0 < a && s.account.balance < a ==>
              r == s.(error := Some(Insufficient))
    ensures forall a :: ParseAmount(parse, s.input) == Some(a) && 0.0 < a <= s.account.balance ==>
              r == App(Account(s.account.balance - a), "", None, Receipt(a))
  {
    match ParseAmount(parse, s.input)
    case None => s.(error := Some(InvalidNumber))
    case Some(amount) =>
      var w := Withdraw(s.account, amount);
      if w.ok then
        s.(account := w.account, error := None, route := Receipt(amount), input := "")
      else
        s.(error := Some(if amount <= 0.0 then NotPositive else Insufficient))
  }

  /** `onValueChange`: the field takes the new text and any error is dismissed. */
  function EditInput(s: App, text: string): (r: App)
    ensures r.input == text && r.error == None
    ensures r.account == s.account && r.route == s.route
  {
    s.(input := text, error := None)
  }

  /** The receipt's return button pops back to the wallet screen. The wallet
      screen's field and error are remembered only while it is shown, so it
      comes back empty and without error; the ledger is not touched. */
  function ReturnToWallet(s: App): (r: App)
    requires s.route.Receipt?
    ensures r.route == Wallet && r.account == s.account
    ensures r.input == "" && r.error == None
  {
    App(s.account, "", None, Wallet)
  }

  /** Whether the withdraw button is enabled: the field is not blank. */
  predicate ButtonEnabled(s: App) {
    !IsBlank(s.input)
  }

  /** One user action. An action whose control is not on the current screen
      leaves the state as it is; a press of the disabled button does nothing;
      the keyboard's "done" action submits whatever the field holds. */
  function Step(parse: Parser, s: App, e: Event): (r: App)
    ensures s.route.Wallet? && r.route.Receipt? ==>
              r.account.balance == s.account.balance - r.route.amount && r.route.amount > 0.0
    ensures !(s.route.Wallet? && r.route.Receipt?) ==> r.account == s.account
  {
    match e
    case Edit(text) => if s.route.Wallet? then EditInput(s, text) else s
    case Press => if s.route.Wallet? && ButtonEnabled(s) then Submit(parse, s) else s
    case Done => if s.route.Wallet? then Submit(parse, s) else s
    case Back => if s.route.Receipt? then ReturnToWallet(s) else s
  }

  /** A submit withdraws exactly when the parsed amount is positive and
      covered by the balance. */
  predicate Succeeds(parse: Parser, s: App) {
    match ParseAmount(parse, s.input)
    case None => false
    case Some(a) => 0.0 < a <= s.account.balance
  }

  /** The three errors in the order the code checks them, independent of how
      `Submit` routes through the ledger's flag: the parse (line 112 of
      MainActivity.kt) first, then `withdraw`'s guards (lines 45-46): a
      non-positive amount, then an amount above the balance. */
  function ExpectedError(parse: Parser, s: App): Option<string> {
    match ParseAmount(parse, s.input)
    case None => Some(InvalidNumber)
    case Some(a) =>
      if a <= 0.0 then Some(NotPositive)
      else if a > s.account.balance then Some(Insufficient)
      else None
  }

  /** `Submit` reports the expected error, moves to the receipt exactly when
      no error is expected, and changes the ledger only then. */
  lemma SubmitMatchesTaxonomy(parse: Parser, s: App)
    requires s.route == Wallet
    ensures Submit(parse, s).error == ExpectedError(parse, s)
    ensures Submit(parse, s).route.Receipt? <==> ExpectedError(parse, s) == None
    ensures Submit(parse, s).route.Receipt? <==> Succeeds(parse, s)
    ensures !Succeeds(parse, s) ==> Submit(parse, s).account == s.account
  {
  }

  /** On a refused parsed amount the message says "must be greater than 0"
      exactly when the amount is not positive, and "insufficient balance"
      otherwise; the balance stays either way. */
  lemma RefusalMessage(parse: Parser, s: App, a: real)
    requires ParseAmount(parse, s.input) == Some(a)
    requires !(0.0 < a <= s.account.balance)
    ensures Submit(parse, s).error == Some(NotPositive) <==> a <= 0.0
    ensures Submit(parse, s).error == Some(Insufficient) <==> a > 0.0
    ensures Submit(parse, s).account == s.account && Submit(parse, s).route == s.route
  {
  }

  /** Withdrawing and then returning from the receipt lands on an empty,
      error-free wallet screen whose balance is exactly the amount lower;
      the return itself moves no money. */
  lemma WithdrawThenReturn(parse: Parser, s: App, a: real)
    requires s.route == Wallet
    requires ParseAmount(parse, s.input) == Some(a) && 0.0 < a <= s.account.balance
    ensures Step(parse, s, Done).route == Receipt(a)
    ensures Step(parse, Step(parse, s, Done), Back) == App(Account(s.account.balance - a), "", None, Wallet)
  {
  }

  /** A press of the button while the field is blank changes nothing; the
      keyboard action on the same field still submits. */
  lemma BlankPressIgnored(parse: Parser, s: App)
    requires s.route == Wallet && IsBlank(s.input)
    ensures Step(parse, s, Press) == s
    ensures Step(parse, s, Done) == Submit(parse, s)
  {
  }

  /** On the wallet screen a press of the enabled button submits, and the
      keyboard's "done" action submits whatever the field holds. */
  lemma PressSubmits(parse: Parser, s: App)
    requires s.route == Wallet && !IsBlank(s.input)
    ensures Step(parse, s, Press) == Submit(parse, s)
    ensures Step(parse, s, Done) == Submit(parse, s)
  {
  }

  /** Typing always dismisses the error, whatever it was. */
  lemma EditClearsError(parse: Parser, s: App, text: string)
    requires s.route == Wallet
    ensures Step(parse, s, Edit(text)) == s.(input := text, error := None)
  {
  }

  /** Typing `,` or `.` as the separator makes no difference to the outcome
      of a submit: same error, same ledger, same screen. */
  lemma SeparatorChoiceIrrelevant(parse: Parser, s: App, t: string)
    requires SameUpToSeparators(s.input, t)
    ensures Submit(parse, s.(input := t)).error == Submit(parse, s).error
    ensures Submit(parse, s.(input := t)).account == Submit(parse, s).account
    ensures Submit(parse, s.(input := t)).route == Submit(parse, s).route
  {
    SeparatorsInterchangeable(s.input, t);
  }
}
