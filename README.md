# Bank ledger model

A Dafny model of the account ledger of a small Java banking application
(`Login.java`, lines 9–273): the `Transaction` record, the `Receipt`
formatter, the account hierarchy `BankAccount` / `SavingsAccount` /
`CheckingAccount` / `LoanMortgageAccount`, and the `BankAccountManager` that
keeps accounts keyed by holder name.

Files, one module each:

- `wrappers.dfy` — `Option`, used where Java returns `null` or loading fails.
- `transaction.dfy` — `Transaction`, the `Stamp` the environment supplies (formatted date and the `Random.nextInt(100000)` draw), decimal formatting of the identifier.
- `receipt.dfy` — `GenerateReceipt` and its inverse `ParseReceipt`.
- `amortization.dfy` — `calculateMonthlyPayment`, the payment test and the loan update, over `real`.
- `account.dfy` — class `Account`. A `kind` field selects the variant: `Basic` (a plain `BankAccount`), `Savings`, `Checking` or `LoanMortgage`. `withdraw` is one method that matches on it.
- `manager.dfy` — class `AccountManager` over a `map<string, Account>`.
- `scenarios.dfy` — client methods that use only the contracts: savings 500 with withdrawals of 600 (declined) and 500 (accepted, balance 0); checking 100 with overdraft 50 and a withdrawal of 140 (balance −40); a loan of 12000 at 0.06 over 12 months that declines a withdrawal and a payment of 50; save and look up; and the account screen, which looks an account up by name, deposits and withdraws on the returned account and saves it back.

The object invariant `Account.Valid` says the balance equals the history
replayed from zero. Opening amounts and deposits add; withdrawals and loan
payments subtract. Each variant records only its own labels. Every
constructor establishes the invariant and every operation preserves it. So each
change of the balance is logged exactly once, and a declined operation logs
nothing. Each mutating method also says that history is the old history plus
at most one entry at the end.

The descriptions are the code's own spellings: the base `withdraw` records
`"Withdrawl"`, the checking override records `"Withdraw"`.

Money is `real`. `makeLoanPayment` compares the payment against the formula
using Java's `double` semantics wherever the denominator `(1 + r)^n − 1` is
zero. That gives +∞, −∞, or NaN for a zero numerator, and `>=` is false
against NaN and +∞ and true against −∞. So with a zero rate no payment is
ever accepted, and with a zero term and negative interest every payment is.

## Model

| member | source | states |
|---|---|---|
| `Transactions.NewTransaction` | Login.java:14-19 | amount and description are stored verbatim, with no validation; the date is the clock reading; the identifier is canonical decimal text of the random draw |
| `Transactions.TransactionId` | Login.java:30-33 | the identifier is one to five decimal digits with no leading zero, and it reads back as the draw in [0, 100000) |
| `Transactions.DecimalText` | Login.java:32 | `String.valueOf(n)` for `n ≥ 0`: canonical decimal text, at least one digit and no leading zero unless it is "0" |
| `Transactions.DecimalRoundTrip` | Login.java:32 | the decimal text of `n` reads back as `n` under the independent digit reading `DecimalValue` |
| `Transactions.DecimalLength` | Login.java:32 | a number below 10^k has at most k digits |
| `Transactions.TransactionIdCollision` | Login.java:30-33 | two identifiers coincide exactly when the two draws coincide; uniqueness is only as good as the random draw |
| `Receipts.GenerateReceipt` | Login.java:47-53 | the receipt text: "Date: " + date, "Transaction ID: " + id and the details, each followed by `\n`; it starts with the date label, ends with a line break and is 25 characters longer than its three fields |
| `Receipts.TakeLine` | Login.java:47-53 | a helper of `ParseReceipt`, the model's inverse of `generateReceipt` (no such parser exists in the source): splitting at the first line break returns a line with no break, and the pieces rejoin to the input |
| `Receipts.TakeLineOf` | Login.java:49-51 | supports the inverse of `generateReceipt`, undoing the `\n` appended to each line: a line without breaks followed by `\n` is split back off exactly |
| `Receipts.ReceiptRoundTrip` | Login.java:47-53 | the three-line text "Date: d", "Transaction ID: i", details, each ending in `\n`, parses back to the same receipt when the fields hold no line break |
| `Receipts.ParsedReceiptRegenerates` | Login.java:47-53 | every text the parser accepts is exactly the formatter's output on the fields read, and those fields hold no line break |
| `Amortization.Pow` | Login.java:243 | a power of a non-zero base is non-zero, so a negative exponent is well defined |
| `Amortization.PowIsOne` | Login.java:243 | `b^n` is exactly 1 only for n = 0, b = 1, or b = −1 with n even |
| `Amortization.MonthlyInterest` | Login.java:218 | one month's interest `loanAmount * interestRate / 12`: zero exactly when the loan or the rate is zero, positive exactly when they have the same sign |
| `Amortization.MonthlyPayment` | Login.java:239-247 | the amortisation formula `P·r·(1+r)^n / ((1+r)^n − 1)` with r = rate/12. The result is finite unless `(1+r)^n` is exactly 1 (zero term, zero rate, or rate −24 with an even term) or infinite (rate −12 with a negative term). When the power is 1, the result is +∞ if one month's interest is positive, −∞ if it is negative, and NaN if it is zero. When the power is infinite, the result is NaN |
| `Amortization.CoversMonotone` | Login.java:221 | the test `paymentAmount >= monthlyPayment` ("pay at least the monthly payment", 234) is upward-closed: a larger payment is accepted whenever a smaller one is, for every amount due including ±∞ and NaN |
| `Amortization.LoanAfterPayment` | Login.java:224 | the loan after `loanAmount -= (paymentAmount - monthlyInterest)`: it shrinks exactly when the payment exceeds the pre-payment month's interest, stays the same exactly when they are equal, and is zero after paying the loan plus that interest |
| `Amortization.PowAboveOne` | Login.java:243 | (1 + r)^n > 1 for a base above 1 and n ≥ 1, so the denominator is then non-zero |
| `Amortization.PowOfOne` | Login.java:243 | 1^n = 1, the degenerate base of a zero rate |
| `Amortization.PaymentExceedsInterest` | Login.java:239-247 | for a positive loan, a positive rate and a term of at least one month, the payment due is finite and exceeds one month's interest |
| `Amortization.AcceptedPaymentReducesLoan` | Login.java:218-224 | under those conditions every accepted payment strictly lowers the outstanding loan |
| `Amortization.LastMonthClearsLoan` | Login.java:239-247 | for every non-zero rate, with a one-month term the payment due is the loan plus one month's interest, and paying it leaves a loan of zero |
| `Amortization.InterestFreeLoanDeclinesEveryPayment` | Login.java:239-247 | at a zero rate the formula is 0/0 (NaN), so every payment is declined for every loan and term |
| `Amortization.ZeroTermLoan` | Login.java:239-247 | with a zero term a payment is accepted iff one month's interest is negative (the due amount is then −∞) |
| `Accounts.ReplayAppend` | Login.java:115 | appending one entry to the history changes the replayed balance by exactly that entry's effect |
| `Accounts.Account.Init` | Login.java:117-122 | the two-argument constructor gives balance 0, an empty history and the given number and holder |
| `Accounts.Account.InitFunded` | Login.java:124-130 | the initial-balance constructor gives balance b and the history `[Transaction(b, "Initial Transaction")]` |
| `Accounts.Account.InitSavings` | Login.java:176-179 | a savings account is opened through the initial-balance form and keeps its interest rate |
| `Accounts.Account.InitChecking` | Login.java:253-256 | a checking account is opened through the initial-balance form and keeps its overdraft limit |
| `Accounts.Account.InitLoanMortgage` | Login.java:191-196 | a loan account is opened through the two-argument form (balance 0, empty history) and keeps loan amount, rate and term |
| `Accounts.Account.Deposit` | Login.java:148-151 | the balance grows by the amount, of either sign, and exactly one "Deposit" entry is appended; earlier entries are untouched |
| `Accounts.Account.Withdraw` | Login.java:153-272 | base and savings accept iff amount ≤ balance (153-162); checking iff amount ≤ balance + overdraft limit (263-272); a loan account never accepts (211-215). If accepted, the balance drops by the amount and one entry is appended ("Withdrawl", or "Withdraw" for checking). If declined, balance and history are unchanged. After an accepted withdrawal, a basic or savings balance is non-negative and a checking balance is at least minus the overdraft limit |
| `Accounts.Account.WithdrawWithin` | Login.java:154-161 | the shared accept-or-decline step against a threshold (also 264-271): accepted iff amount ≤ threshold; if accepted, the balance drops by the amount and one entry is logged; if declined, nothing changes |
| `Accounts.Account.MakeLoanPayment` | Login.java:217-236 | a payment that covers the monthly payment lowers the balance by the payment and the loan by the payment minus the pre-payment month's interest, and appends one "Loan Payment" entry; any other payment changes neither balance, loan nor history; rate and term never change |
| `Management.AccountManager.constructor` | Login.java:60-63 | the manager starts from the loaded map, or from an empty map when loading failed (95-108); every stored account satisfies the account invariant |
| `Management.AccountManager.SaveAccountDetails` | Login.java:65-69 | afterwards the holder's name maps to the account; every other key and value is unchanged; being keyed by holder is preserved, and so is the invariant that every stored account is valid |
| `Management.AccountManager.GetAccountByName` | Login.java:71-73 | returns the entry stored under the name, and null exactly when the name is absent; a returned account satisfies the account invariant, so it can be used for deposits and withdrawals (Login.java:579, 625, 636) |
| `Management.AccountManager.GetAccountByNumber` | Login.java:75-83 | returns a stored account carrying the number, and null exactly when no stored account carries it; a returned account satisfies the account invariant |
| `Management.SavedNumberInUse` | Login.java:65-83 | after saving an account, its number is in use, so the number lookup finds an account |

## Left out

- Persisting the map (`saveAccountMap`, `loadAccountMap`, `writeObject`, `readObject`, Login.java:85-108 and 164-170) is file I/O and is not modelled. The constructor takes the deserialised map as an `Option`, with `None` for a missing, unreadable or non-map file. The save-then-reload round trip is therefore not stated.
- The wall-clock date and the `Random` draw (Login.java:15-16, 30-31) come from the environment. They arrive as a `Stamp` parameter; only the decimal formatting of the draw is modelled.
- The console messages (`System.out.println`) are not modelled.
- `double` arithmetic is not modelled: amounts are exact `real`s. Rounding and overflow are out of scope. So are a `(1 + r)^n` that rounds to 1 without being 1, and NaN or infinite amounts typed by the user.
- The getters are the class's fields or the `Kind` fields: `getBalance`, `getAccountNumber`, `getAccountHolder`, `getTransactions`, `getInterestRate`, `getOverdraftLimit`, `getLoanAmount` and `getLoanTermMonths`. `getTransactions` hands out the live `ArrayList`, so a caller could edit the list. That aliasing is not modelled: only the account's own methods change its history.
- Management.AccountManager.constructor: requires every loaded account to satisfy the account invariant. Deserialisation is not modelled, and the file only ever receives accounts the ledger's own operations produced.
- Accounts.Account.MakeLoanPayment: requires a loan account, because the Java method exists only on `LoanMortgageAccount`.
- Management.AccountManager.GetAccountByNumber: does not say which account comes first when several share a number, because `HashMap` iteration order is unspecified. The model may return any of them.
- Unvalidated input is kept as the code has it. A negative deposit lowers the balance, and `loanTermMonths` is never decremented after a payment.
- The Swing screens, the registration form and the plaintext credential file (Login.java:275-712) are presentation and file I/O.
