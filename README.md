# Abdullah Banking Service — account ledger model

A Dafny model of the account ledger of the Abdullah Banking Service console
program (`Program.cs`): the `CustomerAccount` class with its guarded
operations and its append-only transaction history, and the parts of the
`Program` class that act on the list of all accounts — the login search,
account opening with its account numbering, the transfer between two
accounts, the sample accounts the program starts with, and the
fixed-deposit calculator.

Modules, one per component:

- `Ledger` (`ledger.dfy`): a history line is an `Entry` value carrying what
  the text line prints (kind, amount, the balance it reports, names) without
  its timestamp. `Net` is the running sum of the signed amounts and
  `RecordsAgree` says that every line that reports a balance reports the
  running sum at that point.
- `Account` (`account.dfy`): `CustomerAccount` is a class whose methods
  update its fields in place; each method's `modifies` clause names exactly
  the fields it assigns. The object invariant `Valid()` says the history
  starts with the one creation entry, that the balance equals `Net(history)`,
  and that every reported balance agrees with the running sum. Every mutator
  keeps `Valid()` and either leaves the history alone or appends to it, so
  no entry is ever removed or reordered. The ordered withdrawal rules are the
  function `WithdrawalDecision`, which `MakeWithdrawal` is proved against.
- `AccountNumbers` (`account_numbers.dfy`): the number format
  `ABS-2024-` followed by the count, zero-padded to three digits, and its
  round trip back to the count.
- `Bank` (`bank.dfy`): the class `Directory` holds the program's list of all
  accounts. `Login` and `FindAccount` are the two linear searches with early
  exit, `CreateNewAccount` opens an account numbered from the list size, and
  `ProcessTransfer` checks the recipient, the PIN and the amount, then
  withdraws from the sender and credits the recipient only on success. The
  eleven sample accounts are the table `Samples`. `InitializeSampleData`
  adds them one after the other, in the program's order.
- `FixedDeposit` (`fixed_deposit.dfy`): the validation, rate and
  simple-interest rule of the fixed-deposit calculator.

Money is a `real`. Amounts are exact, as C# `decimal` is for the amounts
involved. The 70% rule is `amount > balance * 0.7`, as in the source. The
interactive yes/no question asked during a large withdrawal is the boolean
parameter `confirmed`.

The model follows the code as written, including:

- `MakePayment` authorises itself with the fixed PIN `"0000"`. It does not
  ask for the holder's PIN.
- Account numbers come from the list size and can repeat an existing number.
- `ChangePin` reports nothing. The menu that calls it prints "PIN changed
  successfully" whatever happened (Program.cs:824-826).
- A PAYMENT line repeats the amount of the WITHDRAWAL line written just
  before it. In `Net` it therefore counts as zero, and the balance equals the
  sum of the other lines' signed amounts.

## Model

| member | source | states |
|---|---|---|
| `Ledger.NetAppend` | Program.cs:90-91 | appending one history line moves the running sum by exactly that line's signed amount |
| `Ledger.RecordsAgreeAppend` | Program.cs:155-156 | an appended line keeps the reported balances consistent iff a line that reports a balance reports the previous sum plus its own amount |
| `Ledger.NetConcat` | Program.cs:15 | the running sum of a history split in two is the sum of the two parts' sums |
| `Account.BalanceChangeIsNetOfNewEntries` | Program.cs:12-15 | between two valid states where the later history extends the earlier one, the balance moved by exactly the signed sum of the lines added |
| `Account.WithdrawalDecision` | Program.cs:106-152 | a withdrawal succeeds iff the PIN matches, the card is unlocked, 0 < amount <= 20000, amount <= balance and (confirmed or amount <= 70% of balance); each refusal is stated as an iff in the order the checks are made: a wrong PIN exactly when the PIN fails, a locked card exactly when the PIN passes and the card is locked, an invalid amount exactly when those pass and the amount is outside (0, 20000], insufficient funds exactly when the amount is in range but above the balance, and a cancellation exactly when an affordable in-range amount above 70% is not confirmed; a success never takes the balance below zero |
| `Account.ConfirmationBoundary` | Program.cs:140-152 | on a balance of 1000, 700 is paid out without the question; 701 is cancelled unless confirmed |
| `Account.LargeWithdrawalScenario` | Program.cs:140-159 | on a new account holding 1000, asking for 701 without confirming is cancelled, and asking again with confirmation succeeds and leaves a balance of 299 |
| `Account.CustomerAccount.constructor` | Program.cs:23-40 | the balance is the initial deposit, the card is unlocked, alerts are on, question and answer are empty, and the history is exactly one ACCOUNT CREATED line; the object invariant holds |
| `Account.CustomerAccount.ChangePin` | Program.cs:43-55 | with the right old PIN: the PIN becomes the new one, `CheckPin` then accepts the new PIN and no longer a different old one, and one PIN CHANGED line is appended; with a wrong old PIN, PIN and history are unchanged and `CheckPin` accepts exactly what it accepted before; nothing else can change |
| `Account.CustomerAccount.SetSecurityQuestion` | Program.cs:57-66 | overwrites question and answer, after which the new answer verifies; only those two fields change and nothing is logged |
| `Account.CustomerAccount.ToggleCardLock` | Program.cs:68-73 | the lock flag takes the given value and one CARD LOCKED/UNLOCKED line is appended, even when the value is unchanged |
| `Account.CustomerAccount.ToggleTransactionAlerts` | Program.cs:75-78 | only the alerts flag changes; nothing is logged |
| `Account.CustomerAccount.MakeDeposit` | Program.cs:80-104 | succeeds iff 0 < amount <= 50000; on success the balance grows by exactly the amount and one DEPOSIT line reporting the new balance is appended; on failure balance and history are unchanged; the invariant is kept |
| `Account.CustomerAccount.MakeWithdrawal` | Program.cs:106-166 | the outcome is `WithdrawalDecision` of the stored PIN check, the lock, the amount, the balance and the confirmation; on success the balance drops by exactly the amount and one WITHDRAWAL line with the new balance is appended; every refusal leaves balance and history unchanged; PIN and lock are never touched |
| `Account.CustomerAccount.ReceiveTransfer` | Program.cs:248-259 | credits any amount without a bound check and appends one TRANSFER RECEIVED line with the sender's name and the new balance |
| `Account.CustomerAccount.MakePayment` | Program.cs:261-270 | succeeds iff a withdrawal authorised with PIN "0000" succeeds, so only when the stored PIN is "0000"; then the balance drops once by the amount and a WITHDRAWAL line and a PAYMENT line are appended; otherwise nothing changes |
| `Account.CustomerAccount.GetTransactionHistory` | Program.cs:243-246 | returns the whole history in order; it is never empty, opens with the creation line, and its running sum is the balance |
| `AccountNumbers.AccountNumberFor` | Program.cs:616-617 | the number minted for a count starts with "ABS-2024-" and continues with at least three decimal digits |
| `AccountNumbers.AccountNumberRoundTrip` | Program.cs:616-617 | reading the digits after the prefix back gives the count the number was minted from |
| `AccountNumbers.AccountNumberInjective` | Program.cs:616-617 | two counts give the same account number iff they are equal |
| `Bank.TransferDecision` | Program.cs:1099-1146 | a transfer goes through iff the recipient exists and is not the sender's number, the PIN matches, and the sender's withdrawal rules pass for the amount; each refusal is stated as an iff in the order the checks are made: a bad recipient exactly when the recipient check fails, a bad PIN exactly when it passes and the PIN fails, a rejected amount exactly when both pass and the amount is not above zero, and a withdrawal refusal, carrying the withdrawal rules' own outcome, exactly when the amount is above zero and those rules refuse it; a completed transfer never overdraws the sender |
| `Bank.SamplesAreMintable` | Program.cs:459-469 | each sample account number is the number account opening mints for some count (58, 57, 49, 59, 60, 11, 65, 10, 1, 47, 22) |
| `Bank.OnlyLastSampleHoldsItsNumber` | Program.cs:459-469 | no sample before the last holds the last sample's number ABS-2024-022 |
| `Bank.NoSampleHasPaymentPin` | Program.cs:459-469 | no sample account has the PIN "0000" that payments authorise with |
| `Bank.FirstRepeatedNumber` | Program.cs:616-617 | after the eleven samples, the next ten accounts get numbers no sample holds, and the one after them (list size 21) gets ABS-2024-022, the last sample's number |
| `Bank.SampleShadowsLaterNumber` | Program.cs:1100-1107 | while the samples lead the list, the first account numbered ABS-2024-022 is the last sample, whatever follows it |
| `Bank.Directory.constructor` | Program.cs:426 | the program starts with an empty list of accounts |
| `Bank.Directory.AddSample` | Program.cs:459-469 | appends one new account holding a sample's number, holder, PIN and balance |
| `Bank.Directory.InitializeSampleData` | Program.cs:457-470 | appends eleven new accounts that hold the samples' numbers, holders, PINs and balances, in the program's order, keeping what was there |
| `Bank.Directory.FindAccount` | Program.cs:1099-1107 | returns null iff no account has the number, and otherwise the first account that has it |
| `Bank.Directory.Login` | Program.cs:558-566 | returns an account iff some account has both the number and the PIN, and then the first such; a wrong PIN and an unknown number both give null |
| `Bank.Directory.CreateNewAccount` | Program.cs:606-619 | refuses exactly a negative deposit and changes nothing then; otherwise appends exactly one new account numbered `AccountNumberFor(size + 1)`, without checking that number against the list, with the given holder, PIN and deposit and a one-line history |
| `Bank.Directory.ProcessTransfer` | Program.cs:1089-1155 | the recipient is the first account with the entered number; the outcome is `TransferDecision` of the recipient check, the PIN, the lock, the amount and the balance; when it goes through the sender loses and the recipient gains exactly the amount, each with one new line (WITHDRAWAL, TRANSFER RECEIVED with the sender's name); otherwise both accounts are unchanged; the sum of the two balances is always preserved; only the balances and histories of the two accounts can change, so names, PINs, card locks, alert settings and security answers stay as they were, and no other account changes |
| `Bank.RepeatedNumberScenario` | Program.cs:616-619 | starting from the samples, opening ten accounts and then an eleventh gives that account the number ABS-2024-022, which the last sample already holds; a transfer to that number finds the sample, never the new account |
| `FixedDeposit.RateNeverFalls` | Program.cs:1309 | the yearly rate is positive and never falls as the term grows (3% below twelve months, 5% from twelve on) |
| `FixedDeposit.Calculate` | Program.cs:1286-1311 | refuses a principal <= 0 first and then a term outside 1..60 months; otherwise quotes the rate for the term, and a total that is the principal plus the interest, strictly above the principal and at most 125% of it |
| `FixedDeposit.RateTimesTermGrows` | Program.cs:1309-1310 | for terms within 1..60 months, the rate times the term never falls as the term grows, across the step from 3% to 5% too |
| `FixedDeposit.InterestKeepsOrder` | Program.cs:1310 | for a positive principal, a larger rate-times-term gives at least as much interest |
| `FixedDeposit.InterestBounds` | Program.cs:1310-1311 | at a positive rate with rate times term at most 3 (5% for 60 months), the interest on a positive principal is positive and at most a quarter of it |
| `FixedDeposit.LongerTermEarnsMore` | Program.cs:1309-1310 | for the same principal a longer term never earns less interest, including across the step from 3% to 5% |

## Left out

- Console output: colours, menus, headers, the random greeting, the alert
  messages that `MakeDeposit`, `MakeWithdrawal` and `ReceiveTransfer` print
  when alerts are on, and the success and error messages. The alerts flag is
  kept; what it prints is not.
- Timestamps (`DateTime.Now`): history lines carry no time. `AccountCreated`
  and `LastLogin`, the login history that `CustomerLogin` records, and the
  time-based complaint ticket ids are not part of this model.
- File output: `GenerateStatement`, `GeneratePaymentReceipt` and the
  complaint log file. These write files and swallow every error.
- The help desk (`HelpDesk`): interactive prompts around a static list of
  complaint strings.
- `ShowAccountInfo`, the virtual card screen (which also overwrites
  `StudentID` from the console), the information screens, and the currency
  converter. These only display, or divide by a fixed rate table for display.
- Parsing typed input with `decimal.TryParse` and `int.TryParse` in the menus.
  The model takes the parsed numbers. The payment-history total, which parses
  amounts back out of history text, is not part of this model.
- The payment hub menus. They call `MakeWithdrawal` with the holder's PIN and
  are not part of this model.
- C# `decimal` limits: rounding to 28 significant digits and overflow
  exceptions. Amounts are exact reals, so interest is computed without
  rounding.
- The confirmation answer is a boolean. In the source, only "y" or "Y"
  confirms, and end of input (a null line) throws.
- Account.CustomerAccount.GetTransactionHistory: returns a copy of the
  history as a value. The source hands out its live list, which a caller
  could modify. No caller in the program does.
