# Bank account

A model of the bank account that `src/04-test-class/index.test.ts` exercises. An account is created by the `getBankAccount` factory with an initial balance. It reports the balance with `getBalance` and changes it in place with `deposit`, `withdraw`, `transfer` and `synchronizeBalance`. Failures are thrown as `InsufficientFundsError`, which carries the balance at the time of the failed debit, `TransferFailedError` and `SynchronizationFailedError`.

The implementation file of the account (`src/04-test-class/index.ts`) is not part of this model. The behaviour modelled here is the behaviour the test file asserts. In particular, a transfer to the account itself fails with `TransferFailedError` even when the amount also exceeds the balance (150 against 100 in the test), so the self-transfer check comes before the funds check.

Files:

- `bank_account.dfy`, module `BankAccount`: the error kinds (`Error`), a `Result` for what an operation returns or throws, and `Option` for the fetched balance. Each operation is a pure function on balances (`Deposited`, `Withdrawn`, `Transferred`, `Synchronized`) that states what it means. The class `Account` has one mutable field, `balance`. Its methods change that field in place, and each method is proved to agree with its function. A method that would return the account for chaining returns it, or returns it inside `Success`.
- `account_history.dfy`, module `AccountHistory`: consecutive calls against several accounts, as the test suite makes them against its two shared accounts. Accounts are positions in a sequence of balances, so two calls name the same account exactly when they name the same position; this stands in for reference identity. Each call's meaning comes from the functions of `BankAccount`. The module proves, over whole runs, that transfers conserve the total and that balances stay non-negative.
- `test_scenario.dfy`, module `TestScenario`: the suite's trace (balance 100, then 400, 200, 50 and 250), replayed once on `Account` objects and once on the history model, and the overwrite behaviour of synchronisation stated for an account holding any balance.

The fetched balance is a parameter of `SynchronizeBalance` of type `Option<int>`, where `None` is the null a failed fetch yields. Balances and amounts are mathematical integers.

## Model

| member | source | states |
|---|---|---|
| `BankAccount.GetBankAccount` | src/04-test-class/index.test.ts:12-13 | the factory returns a new account holding exactly the initial balance |
| `BankAccount.Account.constructor` | src/04-test-class/index.test.ts:12-18 | a new account's balance is the initial balance it was created with |
| `BankAccount.Account.GetBalance` | src/04-test-class/index.test.ts:15-18 | returns the current balance and changes nothing |
| `BankAccount.Deposited` | src/04-test-class/index.test.ts:40-42 | a deposit of a positive amount never fails and leaves a strictly larger balance |
| `BankAccount.Account.Deposit` | src/04-test-class/index.test.ts:40-42 | adds the amount to the balance in place and returns the same account, so a chained `GetBalance` sees the new balance |
| `BankAccount.Withdrawn` | src/04-test-class/index.test.ts:20-25 | a withdrawal succeeds exactly when the amount is at most the balance, and then lowers it by exactly the amount; otherwise it fails with `InsufficientFunds` carrying the balance at the time of the call |
| `BankAccount.Account.Withdraw` | src/04-test-class/index.test.ts:44-46 | on success, lowers the balance in place as `Withdrawn` says and returns the same account; on failure, returns `Withdrawn`'s error and leaves the balance untouched |
| `BankAccount.WithdrawUndoesDeposit` | src/04-test-class/index.test.ts:40-46 | from a non-negative balance, withdrawing what was just deposited succeeds and restores the balance |
| `BankAccount.Transferred` | src/04-test-class/index.test.ts:27-38 | a transfer to the account itself fails with `TransferFailed` whatever the amount; otherwise it fails exactly when a withdrawal of the amount would, with the same `InsufficientFunds` error; on success the target gains exactly the amount and the two balances keep their sum |
| `BankAccount.Account.Transfer` | src/04-test-class/index.test.ts:48-50 | sets both balances in place as `Transferred` says, identifying the same account by reference; returns the source account on success; a failed transfer changes neither balance |
| `BankAccount.DebitKeepsNonNegative` | src/04-test-class/index.test.ts:20-32 | a withdrawal or transfer never takes a non-negative balance below zero, nor the target balance it credits (that a failed call leaves the balances as they were is stated by `BankAccount.Account.Withdraw`, `BankAccount.Account.Transfer` and `AccountHistory.Step`) |
| `BankAccount.Synchronized` | src/04-test-class/index.test.ts:57-69 | synchronisation succeeds exactly when a value was fetched and then yields that value; a missing value is `SynchronizationFailed` |
| `BankAccount.Account.SynchronizeBalance` | src/04-test-class/index.test.ts:57-69 | overwrites the balance with the fetched value; when the fetch yields nothing, fails with `SynchronizationFailed` and leaves the balance untouched |
| `AccountHistory.Step` | src/04-test-class/index.test.ts:20-69 | one call against the shared accounts: a failed call changes no balance, and no call changes an account it does not name |
| `AccountHistory.Run` | src/04-test-class/index.test.ts:12-69 | consecutive calls on the shared accounts give exactly one outcome per call and keep the number of accounts; that each call's effects carry over to the next is stated by `AccountHistory.RunAppend` |
| `AccountHistory.RunAppend` | src/04-test-class/index.test.ts:12-69 | calls carry their effects over: running one sequence of calls and then another is the same as running the second from the balances the first leaves, with both sets of outcomes in order |
| `AccountHistory.TransferConservesTotal` | src/04-test-class/index.test.ts:27-50 | a transfer, whether it succeeds or fails, leaves the total money across all accounts unchanged |
| `AccountHistory.TransfersConserveTotal` | src/04-test-class/index.test.ts:48-50 | any run made only of transfers leaves the total money across all accounts unchanged |
| `AccountHistory.RunKeepsNonNegative` | src/04-test-class/index.test.ts:20-50 | starting from non-negative balances, and fetching only non-negative values, no run of calls ever leaves an account negative |
| `TestScenario.SharedAccountRun` | src/04-test-class/index.test.ts:9-69 | on two account objects created with 100 and 200, the suite's calls report 100, 400, 200, 50 and 250, throw `InsufficientFunds(100)` twice, then `TransferFailed` and `SynchronizationFailed`, and leave the balances at 250 and 350 |
| `TestScenario.SynchronizationOverwrites` | src/04-test-class/index.test.ts:57-62 | on an account holding any prior balance, a synchronisation whose fetch yields `n` leaves exactly `n` (overwrite, not add), and a second one with the same value leaves `n` again |
| `TestScenario.SuiteRun` | src/04-test-class/index.test.ts:9-69 | the history model gives the same outcomes for the suite's calls and the final balances 250 and 350 |

## Left out

- `fetchBalance` (src/04-test-class/index.test.ts:52-55) is left out. The real one is random and lives in `src/04-test-class/index.ts`, which is not part of this model. Its result is instead the `Option<int>` parameter of `SynchronizeBalance`.
- Promises, `await` and the test framework's spying on `fetchBalance` are not modelled. `SynchronizeBalance` runs to completion in one call.
- JavaScript numbers are floating point; the model uses unbounded integers, so rounding is not captured.
- Error messages are not modelled; only the error kind and the balance `InsufficientFunds` carries are.
- Zero and negative amounts are excluded by `requires amount > 0` on `Deposit`, `Withdraw` and `Transfer` and by `WellFormed` in the history model. The tests never use them and the behaviour for them is not specified.
- `AccountHistory.RunKeepsNonNegative` assumes every fetched balance is non-negative. The account itself accepts any number from the fetch and any initial balance, so a negative balance can only come from there.
