# Simple Bank, modelled in Dafny

This project models the core of a small banking demo and the Java exercises kept beside it.

- **Account service** (Spring back end). It opens accounts. It deposits, withdraws and transfers money between accounts, writing one ledger entry per posting. It authenticates by password and lists an account's history, newest first.
- **Data initializer.** At start-up it seeds two test accounts, each with one deposit, inside a catch-all.
- **Account-opening wizard** (React client). It has three steps. Step 1 validates the name, the e-mail address and the phone number. Step 2 validates the password and its confirmation. "Next" and "back" buttons move between the steps.
- **Balance chart** (React client). It picks the ten newest transactions and plots their balances under `M/D H:MM` labels.
- **Java exercises.** Integer income arithmetic, a salary classifier, a raise loop that runs until 1000 has been paid, and array loops.

Money is modelled as `real`, which is exact, as `BigDecimal` is. Java `int` arithmetic is modelled with explicit 32-bit wrap-around (module `JavaInt`).

The account service is built in two layers.

- Module `Ledger` states every operation as a function over a `Bank` value. The value holds the account table keyed by account number, the transaction log in creation order, and the next account id.
- Class `Service.AccountService` holds the same three things as fields. Its methods update those fields step by step, as the service saves its rows.
- Each method's contract says its new state and result are those of the matching `Ledger` function. It also promises that the ledger invariant `Ledger.Valid` still holds afterwards.

`Ledger.Valid` requires the following:

- every account is stored under its own number;
- every balance is non-negative;
- every balance equals the net of the log entries against that account;
- every log entry's `balanceAfter` is the running net at that entry.

The wizard is modelled the same way. Its transitions are functions on a `Wizard` value (as React state updates are), and class `AccountCreation.AccountCreationForm` performs them in place.

Modules: `Wrappers`, `Entities`, `Chars` (the digit class shared by the two client components), `Ledger`, `Service`, `DataInitializer`, `AccountCreation`, `BalanceChart`, `JavaInt`, `IncomeMethods`, `ControlFlow`, `ArrayLoops`.

## Model

| member | source | states |
|---|---|---|
| Ledger.Message | BankingProject/Portfolio/simple-bank-backend/src/main/java/com/simplebank/service/AccountService.java:20-103 | Every exception the service throws carries a non-empty text. |
| Ledger.MessagesDistinct | BankingProject/Portfolio/simple-bank-backend/src/main/java/com/simplebank/service/AccountService.java:20-103 | No two kinds of exception share a text. |
| Ledger.CreateAccount | BankingProject/Portfolio/simple-bank-backend/src/main/java/com/simplebank/service/AccountService.java:20-32 | Fails with the duplicate-number error exactly when the number is taken, and then nothing changes. Otherwise it adds exactly one account, with the given number, owner and password and balance zero; other accounts and the log are untouched. |
| Ledger.GetAccount | BankingProject/Portfolio/simple-bank-backend/src/main/java/com/simplebank/service/AccountService.java:34-37 | Returns the stored account exactly when the number exists, else "account not found"; in a valid bank the account carries that number and a non-negative balance. |
| Ledger.Deposit | BankingProject/Portfolio/simple-bank-backend/src/main/java/com/simplebank/service/AccountService.java:39-57 | A non-positive amount fails before any lookup; an unknown number fails next; either failure changes nothing. It succeeds exactly when the amount is positive and the account exists. On success only that account's balance changes, by exactly +amount, and exactly one DEPOSIT entry is appended carrying the amount and the new balance. |
| Ledger.Withdraw | BankingProject/Portfolio/simple-bank-backend/src/main/java/com/simplebank/service/AccountService.java:59-82 | Errors in order: non-positive amount, unknown account, balance below amount (each an iff, each leaving the bank unchanged). It succeeds exactly when all three checks pass. On success the balance drops by exactly amount and one WITHDRAW entry with the new balance is appended. |
| Ledger.Transfer | BankingProject/Portfolio/simple-bank-backend/src/main/java/com/simplebank/service/AccountService.java:94-138 | The transfer itself: checks, debit, credit of the destination as read after the debit, and the two entries. Its contract is stated by Ledger.TransferOutcome and Ledger.TransferIsTwoPostings. |
| Ledger.TransferOutcome | BankingProject/Portfolio/simple-bank-backend/src/main/java/com/simplebank/service/AccountService.java:94-138 | Errors in order: amount, source existence, source funds, destination existence; any failure changes nothing, and passing all four means success. On success between two accounts the source is debited and the destination credited by the same amount, so their sum is unchanged; no other account changes. TRANSFER_OUT and then TRANSFER_IN entries are appended, each with its account's new balance and the other owner's name, and the TRANSFER_OUT entry is returned. A transfer to the same account leaves the balance unchanged. |
| Ledger.Authenticate | BankingProject/Portfolio/simple-bank-backend/src/main/java/com/simplebank/service/AccountService.java:89-92 | Errors exactly for an unknown account; otherwise true iff the stored password equals the argument. |
| Ledger.History | BankingProject/Portfolio/simple-bank-backend/src/main/java/com/simplebank/repository/TransactionRepository.java:10 | The result holds exactly the log entries of that account id, and no more entries than the log. |
| Ledger.TransactionHistory | BankingProject/Portfolio/simple-bank-backend/src/main/java/com/simplebank/service/AccountService.java:84-87 | Errors exactly for an unknown account; otherwise holds exactly the entries belonging to that account's id. |
| Ledger.HistoryNewestFirst | BankingProject/Portfolio/simple-bank-backend/src/main/java/com/simplebank/repository/TransactionRepository.java:10 | When log ids count up from 1, a history's ids strictly decrease: newest first. |
| Ledger.TransactionHistoryOrdered | BankingProject/Portfolio/simple-bank-backend/src/main/java/com/simplebank/service/AccountService.java:84-87 | In a valid bank, the history returned for any account is ordered newest first. |
| Ledger.PostPreservesValid | BankingProject/Portfolio/simple-bank-backend/src/main/java/com/simplebank/service/AccountService.java:46-56 | One posting (a balance moved by a positive amount, never below zero, plus the entry recording it) keeps the ledger invariant. |
| Ledger.CreatePreservesValid | BankingProject/Portfolio/simple-bank-backend/src/main/java/com/simplebank/service/AccountService.java:20-32 | Opening an account keeps the invariant: the new account starts at zero and no entry refers to it yet. |
| Ledger.DepositPreservesValid | BankingProject/Portfolio/simple-bank-backend/src/main/java/com/simplebank/service/AccountService.java:39-57 | A deposit, successful or not, keeps the invariant. |
| Ledger.WithdrawPreservesValid | BankingProject/Portfolio/simple-bank-backend/src/main/java/com/simplebank/service/AccountService.java:59-82 | A withdrawal, successful or not, keeps the invariant; the funds guard keeps the balance non-negative. |
| Ledger.TransferIsTwoPostings | BankingProject/Portfolio/simple-bank-backend/src/main/java/com/simplebank/service/AccountService.java:109-135 | A successful transfer is a TRANSFER_OUT posting against the source followed by a TRANSFER_IN posting against the destination as it stands after the debit. |
| Ledger.TransferPreservesValid | BankingProject/Portfolio/simple-bank-backend/src/main/java/com/simplebank/service/AccountService.java:94-138 | A transfer, including one to the same account, keeps the invariant; it is two postings in a row. |
| Ledger.ValidBalancesNonNegative | BankingProject/Portfolio/simple-bank-backend/src/main/java/com/simplebank/service/AccountService.java:20-138 | In every valid bank, so in every state the service reaches, each balance is non-negative and equals the net of its account's entries. |
| Service.AccountService.CreateAccount | BankingProject/Portfolio/simple-bank-backend/src/main/java/com/simplebank/service/AccountService.java:20-32 | Updates the account table and the id counter exactly as Ledger.CreateAccount says, and keeps the invariant. |
| Service.AccountService.GetAccount | BankingProject/Portfolio/simple-bank-backend/src/main/java/com/simplebank/service/AccountService.java:34-37 | Returns what Ledger.GetAccount says for the current state; changes nothing. |
| Service.AccountService.Deposit | BankingProject/Portfolio/simple-bank-backend/src/main/java/com/simplebank/service/AccountService.java:39-57 | Updates the state and returns the entry exactly as Ledger.Deposit says, and keeps the invariant. |
| Service.AccountService.Withdraw | BankingProject/Portfolio/simple-bank-backend/src/main/java/com/simplebank/service/AccountService.java:59-82 | Updates the state and returns the entry exactly as Ledger.Withdraw says, and keeps the invariant. |
| Service.AccountService.Transfer | BankingProject/Portfolio/simple-bank-backend/src/main/java/com/simplebank/service/AccountService.java:94-138 | Debits, reads the destination after the debit, credits and logs both entries; the result is exactly Ledger.Transfer's, and the invariant is kept. |
| Service.AccountService.Authenticate | BankingProject/Portfolio/simple-bank-backend/src/main/java/com/simplebank/service/AccountService.java:89-92 | Returns what Ledger.Authenticate says for the current state. |
| Service.AccountService.GetTransactionHistory | BankingProject/Portfolio/simple-bank-backend/src/main/java/com/simplebank/service/AccountService.java:84-87 | Returns what Ledger.TransactionHistory says for the current state. |
| DataInitializer.Run | BankingProject/Portfolio/simple-bank-backend/src/main/java/com/simplebank/DataInitializer.java:15-31 | Performs the two creations and two deposits in order and stops at the first failure. The final state and the completion flag are those of Seed, and the ledger invariant is kept. |
| DataInitializer.Seed | BankingProject/Portfolio/simple-bank-backend/src/main/java/com/simplebank/DataInitializer.java:18-30 | The four calls in order, stopping at the first error with nothing rolled back. Its properties are stated by SeedCompletes, SeedPreservesValid, SeedFromEmpty, SeedWhenAlreadySeeded, SeedIdempotent and SeedPartial. |
| DataInitializer.SeedCompletes | BankingProject/Portfolio/simple-bank-backend/src/main/java/com/simplebank/DataInitializer.java:18-30 | On any valid bank, the run completes iff neither test number is taken. Then the accounts hold 100000 and 50000, and the log gains exactly the two DEPOSIT entries, each with its deposit as balance after. |
| DataInitializer.SeedPreservesValid | BankingProject/Portfolio/simple-bank-backend/src/main/java/com/simplebank/DataInitializer.java:18-30 | Seeding a valid bank leaves it valid. |
| DataInitializer.SeedFromEmpty | BankingProject/Portfolio/simple-bank-backend/src/main/java/com/simplebank/DataInitializer.java:18-27 | From an empty store the run completes. Exactly the two accounts exist, with balances 100000 and 50000 and owners 山田太郎 and 佐藤花子. Both passwords authenticate, and each history is the single DEPOSIT entry of that amount with that balance after. |
| DataInitializer.SeedWhenAlreadySeeded | BankingProject/Portfolio/simple-bank-backend/src/main/java/com/simplebank/DataInitializer.java:18-30 | If the first account already exists, the first call fails, the catch block runs, and the store is unchanged. |
| DataInitializer.SeedIdempotent | BankingProject/Portfolio/simple-bank-backend/src/main/java/com/simplebank/DataInitializer.java:18-30 | A second run always ends in the catch block and changes nothing, so running twice equals running once. |
| DataInitializer.SeedPartial | BankingProject/Portfolio/simple-bank-backend/src/main/java/com/simplebank/DataInitializer.java:18-29 | If only the second account already exists, the first account is created and funded, the run stops at the second creation, and nothing is rolled back. |
| AccountCreation.Set | BankingProject/Portfolio/simple-bank-frontend/src/components/AccountCreation.tsx:30-35 | The named field takes the new value; no other field changes. |
| AccountCreation.AfterChange | BankingProject/Portfolio/simple-bank-frontend/src/components/AccountCreation.tsx:30-35 | A field edit changes only that field of the form, not the step or the error. |
| AccountCreation.EmailPattern | BankingProject/Portfolio/simple-bank-frontend/src/components/AccountCreation.tsx:42 | The regular expression `^[^\s@]+@[^\s@]+\.[^\s@]+$` as three non-empty runs of non-space, non-'@' characters split by '@' and '.'. AccountCreation.EmailPatternIsShape states what it accepts. |
| AccountCreation.EmailPatternIsShape | BankingProject/Portfolio/simple-bank-frontend/src/components/AccountCreation.tsx:42 | The e-mail pattern accepts exactly the texts with no whitespace and exactly one '@', preceded by at least one character and followed by a domain containing a '.' with text on both sides. |
| AccountCreation.EmailPatternHasShape | BankingProject/Portfolio/simple-bank-frontend/src/components/AccountCreation.tsx:42 | Any match of the e-mail pattern has the shape above. |
| AccountCreation.EmailShapeMatches | BankingProject/Portfolio/simple-bank-frontend/src/components/AccountCreation.tsx:42 | Any text of the shape above matches the e-mail pattern. |
| AccountCreation.RemoveDashes | BankingProject/Portfolio/simple-bank-frontend/src/components/AccountCreation.tsx:46 | Removing dashes keeps every other character, with its count, and drops every '-'. |
| AccountCreation.PhonePattern | BankingProject/Portfolio/simple-bank-frontend/src/components/AccountCreation.tsx:46 | `/^\d{11}$/` applied to the text with every '-' removed. AccountCreation.PhonePatternIsShape states what it accepts. |
| AccountCreation.PhonePatternIsShape | BankingProject/Portfolio/simple-bank-frontend/src/components/AccountCreation.tsx:46 | The phone check accepts exactly the texts made only of digits and dashes with exactly 11 digits. |
| AccountCreation.Utf16Length | BankingProject/Portfolio/simple-bank-frontend/src/components/AccountCreation.tsx:62 | A string's JavaScript length lies between its number of code points and twice that. |
| AccountCreation.Message | BankingProject/Portfolio/simple-bank-frontend/src/components/AccountCreation.tsx:37-67 | Every validation failure sets a non-empty message. |
| AccountCreation.ValidateStep1 | BankingProject/Portfolio/simple-bank-frontend/src/components/AccountCreation.tsx:37-51 | Passes iff the owner name is non-empty and the e-mail and the phone have the shapes above. Each error is given as an iff: any empty required field gives the missing-field message first, then a bad e-mail, then a bad phone. |
| AccountCreation.ValidateStep2 | BankingProject/Portfolio/simple-bank-frontend/src/components/AccountCreation.tsx:53-67 | Passes iff the password is non-empty, equals its confirmation, and is at least 8 UTF-16 units long. The messages, each an iff, come in the order missing, mismatch, too short. |
| AccountCreation.AfterNext | BankingProject/Portfolio/simple-bank-frontend/src/components/AccountCreation.tsx:69-77 | The error is cleared first. At step 1 the step becomes 2 iff step 1 validates, and then the generated account number is stored. At step 2 the step becomes 3 iff step 2 validates. Otherwise the step and form stay and the error is the failed validator's message. At step 3 only the error is cleared. |
| AccountCreation.AfterBack | BankingProject/Portfolio/simple-bank-frontend/src/components/AccountCreation.tsx:316-325 | The back button, shown only past step 1, lowers the step by one and changes nothing else. |
| AccountCreation.Dispatch | BankingProject/Portfolio/simple-bank-frontend/src/components/AccountCreation.tsx:316-335 | Any offered event ("back" after step 1, "next" before step 3, an edit at any time) keeps the step within 1..3 and moves it by at most one. |
| AccountCreation.RunKeepsStepInRange | BankingProject/Portfolio/simple-bank-frontend/src/components/AccountCreation.tsx:316-335 | Over any sequence of offered events, the step stays within 1..3. |
| AccountCreation.ReachingStepThreeNeedsNext | BankingProject/Portfolio/simple-bank-frontend/src/components/AccountCreation.tsx:69-77 | Step 3 is reached from an earlier step only through a "next" press. |
| AccountCreation.AccountCreationForm.constructor | BankingProject/Portfolio/simple-bank-frontend/src/components/AccountCreation.tsx:9-23 | The initial hook values: the empty form with initial deposit "1000", step 1 and no error. |
| AccountCreation.AccountCreationForm.HandleChange | BankingProject/Portfolio/simple-bank-frontend/src/components/AccountCreation.tsx:30-35 | The form object's state becomes that of AfterChange. |
| AccountCreation.AccountCreationForm.HandleNext | BankingProject/Portfolio/simple-bank-frontend/src/components/AccountCreation.tsx:69-77 | The form object's state becomes that of AfterNext. |
| AccountCreation.AccountCreationForm.Back | BankingProject/Portfolio/simple-bank-frontend/src/components/AccountCreation.tsx:316-325 | The form object's state becomes that of AfterBack. |
| BalanceChart.Reverse | BankingProject/Portfolio/simple-bank-frontend/src/components/BalanceChart.tsx:41 | The reversed copy has the same length with element k taken from position n-1-k. |
| BalanceChart.RecentTransactions | BankingProject/Portfolio/simple-bank-frontend/src/components/BalanceChart.tsx:41 | `[...transactions].reverse().slice(-10)`: a reversed copy with its last ten entries kept. It has min(10, n) entries (its ensures), and BalanceChart.RecentIsReversedPrefix states which ones. |
| BalanceChart.RecentIsReversedPrefix | BankingProject/Portfolio/simple-bank-frontend/src/components/BalanceChart.tsx:41 | The selection has min(10, n) entries and is the reverse of the first min(10, n) inputs. |
| BalanceChart.RecentOldestFirst | BankingProject/Portfolio/simple-bank-frontend/src/components/BalanceChart.tsx:40-41 | For a newest-first history the selection runs oldest first. |
| BalanceChart.BalanceSeries | BankingProject/Portfolio/simple-bank-frontend/src/components/BalanceChart.tsx:53 | One value per selected transaction, its balanceAfter, in the same order. |
| BalanceChart.Chart | BankingProject/Portfolio/simple-bank-frontend/src/components/BalanceChart.tsx:41-53 | The labels and the data of the chart, equally long (its ensures). BalanceChart.ChartPoints states what each point shows. |
| BalanceChart.ChartPoints | BankingProject/Portfolio/simple-bank-frontend/src/components/BalanceChart.tsx:41-53 | There is one label and one value per selected transaction. Point k shows input m-1-k: its balanceAfter, under its label. |
| BalanceChart.ToDecimal | BankingProject/Portfolio/simple-bank-frontend/src/components/BalanceChart.tsx:45 | A number's text is non-empty, all digits, one digit exactly when the number is below 10, and without a leading zero. |
| BalanceChart.DecimalRoundTrip | BankingProject/Portfolio/simple-bank-frontend/src/components/BalanceChart.tsx:45 | A number's decimal text reads back as that number. |
| BalanceChart.PadStart | BankingProject/Portfolio/simple-bank-frontend/src/components/BalanceChart.tsx:45 | Padding gives the requested width (or the original text if already wider), ending with the original text and filled with the pad character. |
| BalanceChart.MinutesTwoDigits | BankingProject/Portfolio/simple-bank-frontend/src/components/BalanceChart.tsx:45 | The minutes of a time always take exactly two digits and read back as the minute. |
| BalanceChart.Label | BankingProject/Portfolio/simple-bank-frontend/src/components/BalanceChart.tsx:45 | The template `${month+1}/${date} ${hours}:${minutes padded to 2}`. BalanceChart.LabelRoundTrip states what it shows. |
| BalanceChart.LabelRoundTrip | BankingProject/Portfolio/simple-bank-frontend/src/components/BalanceChart.tsx:44-45 | A label reads back as the 1-based month, date, hour and minute. The minutes take two digits; an hour below ten takes one. |
| JavaInt.Wrap | Day03/Methods.java:33-57 | The `int` a Java operation yields: the exact result when it fits in 32 bits, and always congruent to it modulo 2^32. |
| IncomeMethods.CalculateProjectIncome | Day03/Methods.java:37-39 | Without overflow the result is monthly × months. It always agrees with that product modulo 2^32. |
| IncomeMethods.CalculateYearlyIncome | Day03/Methods.java:32-34 | Equals a twelve-month project income, which is monthly × 12 when nothing overflows. |
| IncomeMethods.CalculateSavings | Day03/Methods.java:55-60 | Equals (income − expenses) × months wrapped once, so the intermediate int wrap never matters. Without overflow it is the exact product, and negative when expenses exceed income over a positive number of months. |
| IncomeMethods.ProgramValues | Day03/Methods.java:7-21 | The program's calls give 480, 120 and 150. |
| ControlFlow.Classify | Day02/ControlFlow.java:6-12 | The three branches are taken for salary ≥ 100, 40 ≤ salary < 100 and salary < 40 respectively, each as an iff. |
| ControlFlow.FirstQuarter | Day02/ControlFlow.java:16-18 | The for loop lists months 1, 2 and 3 with salary × month each, as a Java `int` product: wrapped to 32 bits, exact when it fits. |
| ControlFlow.RaiseLoop | Day02/ControlFlow.java:21-32 | For a positive start, the loop ends. The total is what months 1..monthCount paid, with a raise of 20 after every sixth month, and it is at least 1000. Every earlier month's total was below 1000, the overshoot is below the last month's salary, and the salary is start + 20·(monthCount/6). |
| ControlFlow.PaidMonotone | Day02/ControlFlow.java:24-31 | For a positive start the paid total never decreases from month to month. |
| ControlFlow.StopMonthUnique | Day02/ControlFlow.java:24 | The month at which the total first reaches 1000 is unique. |
| ControlFlow.RaisesStep | Day02/ControlFlow.java:25-29 | Completing one more month adds a raise exactly when the month count becomes a multiple of 6. |
| ControlFlow.RaisesIsQuotient | Day02/ControlFlow.java:27-28 | After n months the salary has been raised n / 6 times. |
| ControlFlow.PaidFirstMonths | Day02/ControlFlow.java:24-31 | From any start salary s, 16 months pay 16s + 280 and 17 months pay 17s + 320. |
| ControlFlow.FromForty | Day02/ControlFlow.java:21-32 | Starting from 40 the loop stops at month 17 with total 1000 and salary 80. |
| ControlFlow.Program | Day02/ControlFlow.java:4-32 | Salary 40 takes the "target reached" branch, and the loop ends at month 17 with 1000 paid and the salary at 80. |
| ArrayLoops.TotalIncome | Day03/Arrays.java:29-32 | The total is the array's exact sum wrapped to a Java int, or the exact sum when it fits. |
| ArrayLoops.MonthListing | Day03/Arrays.java:22-26 | Each line pairs the 1-based month with that month's income; the counter ends at length + 1. |
| ArrayLoops.SkillPlan | Day03/Arrays.java:16-18 | Every index is visited once, in order, numbered from 1. |
| ArrayLoops.Program | Day03/Arrays.java:4-32 | On the program's data: first skill "Java", last skill "Docker" (an in-bounds index), five skills, the month counter ends at 7, and the total is 345. |

## Left out

- The loan calculator, the dashboard, the login screen, the REST controller and the HTTP client are not part of this model.
- Money columns have a fixed precision and scale. A value that does not fit may be rejected by the database. The model keeps exact values and sets no bound on amounts or balances.
- Timestamps are left out. The log's order stands for creation order, and the history sorts by that order.
- `@Transactional` rollback is not modelled. The service checks every error before it changes anything, so a failed call has nothing to roll back.
- Printed output of the initializer and of the exercises is left out.
- `generateAccountNumber` draws random digits. It is the `generated` parameter of `AfterNext` and `HandleNext`.
- `handleSubmit` (the asynchronous account-creation request, the success screen and its timer) is left out.
- The loading and success flags of the wizard are left out.
- Date parsing and time-zone conversion in the chart are left out; labels take the local month, date, hour and minute as numbers. The chart's styling options are left out too.
- The chart's input array is never mutated. Dafny sequences are values, so this holds by construction and has no lemma of its own.
- AccountCreation.EmailPatternIsShape: the patterns are read over code points where JavaScript reads UTF-16 units. Every character `\s` matches lies in the Basic Multilingual Plane, so the accepted e-mail and phone texts are the same.
- ControlFlow.RaiseLoop: uses unbounded integers where the source uses Java `int`. The values it reaches for a start that fits in an int would stay in range, but that is not proved.
- ArrayLoops: the average, a `double` division, is left out, and so is the two-dimensional project listing that is only printed.
- The project-listing loop and the greeting and display overloads of the Day 3 methods exercise only print. Day 1 (console input) and the Day 2 variable constants are left out.
- Requests are handled one at a time. The service reads a balance and writes it back without locking, and concurrent requests and their interleavings are not modelled.
