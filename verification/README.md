# Wallet withdrawal — a Dafny model

The app is a two-screen wallet. The wallet screen shows a balance, which starts at 10 000.00. It has a text field for an amount and a withdraw button. The receipt screen confirms the withdrawn amount and has a button that returns to the wallet.

This project models the only logic in the app:

- the view model's guarded `withdraw`;
- the wallet screen's `tryWithdraw`, which normalizes the separator, parses, asks the ledger, and picks an error or navigates to the receipt;
- the surrounding transitions: editing the field, the withdraw button (enabled only for non-blank input), the keyboard's "done" action, and the receipt's return button.

Modules:

- `Ledger` (`ledger.dfy`): the balance and `Withdraw`.
- `Text` (`text.dfy`): comma-to-dot normalization and Kotlin's blank test.
- `Flow` (`flow.dfy`): the app state (account, field, error, route), `Submit` (`tryWithdraw`) and `Step` (one user action).
- `Session` (`session.dfy`): sequences of user actions. It proves the ledger invariant, conservation of money against the amounts the receipts carry, and the idempotence of failing submits.
- `Numeral` (`numeral.dfy`): a concrete parser for plain decimal numerals. It is used by `Scenarios` (`scenarios.dfy`) for concrete sessions.
- `DoubleLedger` (`double_ledger.dfy`): `withdraw` over IEEE-754 values, for the finding below.

Modelling choices:

- Amounts and the balance are exact decimals (`real`), not `Double`.
- Everywhere except `Scenarios`, the number parser (`toDoubleOrNull`) is a parameter `Flow.Parser = string -> Option<real>`, so the flow's properties hold for any parser.
- The receipt route carries the withdrawn amount as a number. The source passes it as a string formatted to two decimals.
- `withdraw` returns a `Boolean`, not a reason, so the flow picks its message from the sign of the amount (line 125).
- The messages are the app's Spanish strings.
- The keyboard's "done" action submits even a blank field (lines 174-176); only the button is disabled then (line 192).

## Model

| member | source | states |
|---|---|---|
| Ledger.Opening | app/src/main/java/com/example/myapplicationbmermelstein/MainActivity.kt:41 | a fresh view model holds 10 000.00 |
| Ledger.Withdraw | app/src/main/java/com/example/myapplicationbmermelstein/MainActivity.kt:44-49 | the withdrawal is accepted exactly when 0 < amount <= balance; then the balance drops by exactly the amount, otherwise the account is unchanged |
| Ledger.NonPositiveRefused | app/src/main/java/com/example/myapplicationbmermelstein/MainActivity.kt:45 | a non-positive amount is refused and the balance stays |
| Ledger.OverdraftRefused | app/src/main/java/com/example/myapplicationbmermelstein/MainActivity.kt:46 | an amount above the balance is refused and the balance stays |
| Ledger.WithdrawEverything | app/src/main/java/com/example/myapplicationbmermelstein/MainActivity.kt:44-48 | withdrawing exactly the balance succeeds and leaves 0 |
| Ledger.WithdrawKeepsBalance | app/src/main/java/com/example/myapplicationbmermelstein/MainActivity.kt:41-48 | a non-negative balance stays non-negative and never grows |
| Text.Normalize | app/src/main/java/com/example/myapplicationbmermelstein/MainActivity.kt:111 | every comma becomes a dot; all other characters and the length are unchanged; no comma remains |
| Text.NormalizeIdempotent | app/src/main/java/com/example/myapplicationbmermelstein/MainActivity.kt:111 | normalizing twice equals normalizing once |
| Text.NormalizeWithoutComma | app/src/main/java/com/example/myapplicationbmermelstein/MainActivity.kt:111 | text without a comma is left exactly as it is |
| Text.SeparatorsInterchangeable | app/src/main/java/com/example/myapplicationbmermelstein/MainActivity.kt:111 | inputs differing only in the choice of comma or dot normalize to the same text |
| Text.NormalizeKeepsBlankness | app/src/main/java/com/example/myapplicationbmermelstein/MainActivity.kt:111 | normalization keeps blank text blank and non-blank text non-blank |
| Numeral.ParseUnsigned | app/src/main/java/com/example/myapplicationbmermelstein/MainActivity.kt:111 | an accepted unsigned numeral has only digits and dots, starts or ends with a digit, and denotes a non-negative value |
| Numeral.Parse | app/src/main/java/com/example/myapplicationbmermelstein/MainActivity.kt:111 | an accepted numeral is a sign, digit or dot followed by digits and dots |
| Numeral.BlankIsNotANumber | app/src/main/java/com/example/myapplicationbmermelstein/MainActivity.kt:111-113 | blank text never parses |
| Numeral.WholeNumeral | app/src/main/java/com/example/myapplicationbmermelstein/MainActivity.kt:111 | every non-empty run of digits is accepted and denotes the value of its digits |
| Numeral.DecimalNumeral | app/src/main/java/com/example/myapplicationbmermelstein/MainActivity.kt:111 | every `digits.digits` form with at least one digit (including `5.` and `.5`) is accepted and denotes the whole part plus the fraction digits divided by 10 to the power of their count |
| Numeral.SignedForm | app/src/main/java/com/example/myapplicationbmermelstein/MainActivity.kt:111 | a `+` or `-` in front hands the rest to the unsigned parser, negating its value for `-` |
| Numeral.SignedNumeral | app/src/main/java/com/example/myapplicationbmermelstein/MainActivity.kt:111 | a leading minus negates the value and a leading plus keeps it |
| Numeral.NegativeNumeralNotPositive | app/src/main/java/com/example/myapplicationbmermelstein/MainActivity.kt:111 | a numeral with a leading minus never denotes a positive amount |
| Numeral.TwoDotsIsNotANumber | app/src/main/java/com/example/myapplicationbmermelstein/MainActivity.kt:111-113 | text with two dots never parses, so a comma used as thousands separator next to a decimal dot is rejected |
| Numeral.LeadingLetterIsNotANumber | app/src/main/java/com/example/myapplicationbmermelstein/MainActivity.kt:111-113 | text whose first character, or first after a sign, is a lower-case letter never parses (the platform parser's letter forms start with "NaN", "Infinity" or a digit) |
| Flow.Initial | app/src/main/java/com/example/myapplicationbmermelstein/MainActivity.kt:72-108 | the app starts on the wallet screen with the opening balance, an empty field and no error |
| Flow.Submit | app/src/main/java/com/example/myapplicationbmermelstein/MainActivity.kt:110-129 | on unparsable text only the invalid-number error is set; on a non-positive amount only the "greater than 0" error; on a positive amount above the balance only the insufficient-balance error; on 0 < a <= balance the balance drops by a, the field and error clear, and the route is Receipt(a) |
| Flow.EditInput | app/src/main/java/com/example/myapplicationbmermelstein/MainActivity.kt:166 | editing sets the field to the new text and clears any error, without touching ledger or route |
| Flow.ReturnToWallet | app/src/main/java/com/example/myapplicationbmermelstein/MainActivity.kt:92 | returning from a receipt lands on the wallet screen with an empty field, no error and the same account |
| Flow.Step | app/src/main/java/com/example/myapplicationbmermelstein/MainActivity.kt:164-193 | only a step from the wallet screen to a receipt moves money; it moves exactly the receipt's positive amount |
| Flow.SubmitMatchesTaxonomy | app/src/main/java/com/example/myapplicationbmermelstein/MainActivity.kt:110-128 | a submit shows the first error in the order the code checks them: the parse at line 112 (invalid number), then `withdraw`'s guards at lines 45-46 (not positive, then insufficient); it opens the receipt exactly when none applies, which is exactly when the amount is positive and covered; otherwise it keeps the account |
| Flow.RefusalMessage | app/src/main/java/com/example/myapplicationbmermelstein/MainActivity.kt:124-127 | on a refused parsed amount the message is "El monto debe ser mayor a 0." exactly when amount <= 0 and "Saldo insuficiente." exactly when amount > 0; account and route are unchanged |
| Flow.WithdrawThenReturn | app/src/main/java/com/example/myapplicationbmermelstein/MainActivity.kt:76-92 | a successful submit opens Receipt(a); returning from it gives an empty, error-free wallet screen whose balance is exactly a lower |
| Flow.BlankPressIgnored | app/src/main/java/com/example/myapplicationbmermelstein/MainActivity.kt:173-192 | pressing the disabled button on a blank field does nothing, while the keyboard's done action still submits |
| Flow.PressSubmits | app/src/main/java/com/example/myapplicationbmermelstein/MainActivity.kt:174-192 | on the wallet screen with a non-blank field, a button press is exactly a submit; the keyboard's done action is a submit too |
| Flow.EditClearsError | app/src/main/java/com/example/myapplicationbmermelstein/MainActivity.kt:166 | on the wallet screen, an edit changes only the field and clears the error |
| Flow.SeparatorChoiceIrrelevant | app/src/main/java/com/example/myapplicationbmermelstein/MainActivity.kt:111 | a submit ends with the same error, account and route whether the separator was typed as a comma or a dot |
| Session.InitialValid | app/src/main/java/com/example/myapplicationbmermelstein/MainActivity.kt:41 | the launch state satisfies the app invariant |
| Session.StepKeepsValid | app/src/main/java/com/example/myapplicationbmermelstein/MainActivity.kt:41-128 | every user action keeps the balance non-negative and opens a receipt only for a positive amount, with field and error cleared |
| Session.RunKeepsValid | app/src/main/java/com/example/myapplicationbmermelstein/MainActivity.kt:41-48 | over any sequence of actions the balance never becomes negative |
| Session.RunConservesMoney | app/src/main/java/com/example/myapplicationbmermelstein/MainActivity.kt:44-48 | over any sequence of actions the final balance is the initial one minus the sum of the receipts opened, each for a positive amount |
| Session.RunNeverCredits | app/src/main/java/com/example/myapplicationbmermelstein/MainActivity.kt:44-48 | the balance never grows, and it stays equal exactly when no receipt was opened |
| Session.FailedSubmitsRepeat | app/src/main/java/com/example/myapplicationbmermelstein/MainActivity.kt:112-127 | repeating a failing submit any number of times equals doing it once: balance, field and screen never change |
| Scenarios.FiveHundredFromOpening | app/src/main/java/com/example/myapplicationbmermelstein/MainActivity.kt:110-123 | with 10 000.00, submitting "500" leaves 9 500.00, clears field and error, and shows Receipt(500.00) |
| Scenarios.WithdrawFiveHundred | app/src/main/java/com/example/myapplicationbmermelstein/MainActivity.kt:110-123 | from launch, typing "500" and pressing withdraw leaves 9 500.00 and shows Receipt(500.00) |
| Scenarios.OverdraftScenario | app/src/main/java/com/example/myapplicationbmermelstein/MainActivity.kt:124-127 | with 100.00, "150" is refused as insufficient balance and nothing else changes |
| Scenarios.ZeroScenario | app/src/main/java/com/example/myapplicationbmermelstein/MainActivity.kt:124-126 | "0" is refused as not positive |
| Scenarios.LettersScenario | app/src/main/java/com/example/myapplicationbmermelstein/MainActivity.kt:111-117 | "abc" sets the invalid-number error and nothing else |
| Scenarios.WholeBalanceScenario | app/src/main/java/com/example/myapplicationbmermelstein/MainActivity.kt:119-123 | with 100.00, "100" succeeds and leaves 0.00 |
| Scenarios.CommaOrDotScenario | app/src/main/java/com/example/myapplicationbmermelstein/MainActivity.kt:111-123 | "12,50" and "12.50" both withdraw 12.50 |
| Scenarios.ThousandsSeparatorScenario | app/src/main/java/com/example/myapplicationbmermelstein/MainActivity.kt:111-117 | "1,000.50" normalizes to "1.000.50" and is reported as an invalid number |
| Scenarios.BlankDoneScenario | app/src/main/java/com/example/myapplicationbmermelstein/MainActivity.kt:173-192 | a blank field submitted with the keyboard action reports an invalid number, and pressing the button does nothing |
| DoubleLedger.NaNWithdrawalCorruptsBalance | app/src/main/java/com/example/myapplicationbmermelstein/MainActivity.kt:44-48 | as written, a NaN amount from the opening balance is accepted and leaves a NaN balance |
| DoubleLedger.WithdrawChecked | app/src/main/java/com/example/myapplicationbmermelstein/MainActivity.kt:44-48 | with positively stated guards, a withdrawal is accepted exactly when 0 < amount <= balance in IEEE comparison; from a finite balance only finite amounts pass |
| DoubleLedger.CheckedKeepsBalanceSound | app/src/main/java/com/example/myapplicationbmermelstein/MainActivity.kt:41-48 | with positive guards, a finite non-negative balance stays finite and non-negative for every amount, including NaN and the infinities |
| DoubleLedger.CheckedIsLedgerWithdraw | app/src/main/java/com/example/myapplicationbmermelstein/MainActivity.kt:44-48 | on finite values the checked withdrawal is exactly the decimal ledger's Withdraw |
| DoubleLedger.AsWrittenAgreesOnNumbers | app/src/main/java/com/example/myapplicationbmermelstein/MainActivity.kt:44-48 | as written and checked differ only when NaN is involved |

## Left out

- Compose rendering: the scaffold, texts, image, text field, theme, tap gestures and focus clearing (lines 115, 123, 127, 139, 175). These are UI toolkit calls with no effect on the modelled state.
- The full grammar of `toDoubleOrNull` is a library routine not shown here. The flow takes the parser as a parameter. `Numeral.Parse` covers only plain decimal numerals; exponents, "NaN", "Infinity", hexadecimal forms, `f`/`d` suffixes and surrounding whitespace are not parsed by it.
- `"%.2f"` and `"%,.2f"` formatting, `Uri.encode` of the receipt argument, and the `"0.00"` default for a missing argument (lines 35, 81, 89, 158). These are locale-dependent library formatting. The receipt carries the amount itself.
- IEEE-754 rounding of the balance subtraction. Amounts are exact decimals. `DoubleLedger` adds NaN and the infinities but keeps finite arithmetic exact.
- The navigation host's back stack beyond the two routes, the system back action on the wallet screen (it would leave the app), and the view model's lifecycle. `Flow.Step` ignores an action whose control is not on the current screen.

## Findings

| source | as written | input that shows it | evidently intended | confidence | as-written member | corrected member |
|---|---|---|---|---|---|---|
| app/src/main/java/com/example/myapplicationbmermelstein/MainActivity.kt:44-48 | the guards are `amount <= 0` and `amount > balance`, and any amount failing both is subtracted | the text "NaN", which `toDoubleOrNull` turns into NaN; both comparisons are false, the withdrawal is reported as successful, and the balance becomes NaN | accept only when `amount > 0 && amount <= balance`, so NaN is refused and the balance stays a non-negative number | medium, not executed (needs an input method that lets letters into the numeric field) | DoubleLedger.NaNWithdrawalCorruptsBalance | DoubleLedger.CheckedKeepsBalanceSound |
