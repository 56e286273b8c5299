# Ledger core of GoCRUD, in Dafny

This project models the ledger core of a small Go banking API. The core holds:

- `Money`, an integer amount of minor units bound to a currency;
- `Account`, whose balance is moved by debits and credits that are allowed only while the account is Active;
- `Transaction`, a deposit, withdrawal or transfer that starts Pending and ends Completed, Failed or Cancelled;
- the handlers that create, process and cancel transactions and rename accounts;
- the generic repository they save through.

## How the model is built

- **Values and objects.** Each entity appears twice. A datatype (`AccountData`, `TransactionData`) is the row the store keeps, and its member functions give each operation on values. A class (`Account`, `Transaction`) is the Go struct behind a pointer: its methods change fields in place, and their contracts tie the new `Data()` to the datatype's function of the old one.
- **The store.** `Repository.Store<T>` holds a map from id to value. `GetByID` returns a copy, and a handler wraps that copy in a fresh object. `Update` overwrites the stored row. Changing a loaded object therefore changes nothing in the store until it is written back. Because of this, a transfer whose source and destination are the same account loads two separate copies, and whichever copy is written last wins.
- **Write failures.** The store's `rejected` set lists the ids whose writes the storage adapter refuses (the error `WriteRejected`). This is how the model expresses the Update and Create failures that the Go tests inject through mocks. A read of an id that is not stored gives `NotFound`.
- **Handlers.** Each handler is an imperative `Handle` method over the stores and the clock, written in the order the Go code runs. Its postcondition equates the reply and the new state with a function: `Process`, `Cancel`, `Create` or `UpdateAccount`. The properties are proved about those functions.
- **Time and ids.** Time comes from `Core.Clock`, a strictly increasing clock. It is read exactly where the Go code calls `time.Now()`, so a debit or credit that is refused does not read the clock. UUIDs are opaque natural numbers supplied by the caller.
- **Missing account ids.** Go dereferences a nil `FromAccountID`/`ToAccountID` while processing, which panics. The model turns this into the error `NilAccountId`. It is returned with nothing written and without marking the transaction Failed, matching a panic that aborts the request.

Facts about the source that the proofs bring out:

- A self-transfer with enough funds **raises** the account's balance by the amount (`ProcessLemmas.SelfTransferRaisesBalance`).
- The two account writes of a transfer are not atomic (`ProcessLemmas.TransferPartialWrite`).
- If only the final write of a Completed transaction is refused, it stays Pending with its balance effect already saved. Processing it again applies that effect a second time (`ProcessLemmas.LostCompletionCreditsTwice`).
- No amount is checked for sign, so a negative credit can drive a balance below zero (`Accounts.NegativeCreditOverdraws`).

Terminal transaction states are not enforced by the entity (`Transactions.TerminalStatesNotEnforced`), only by the Pending checks in the process and cancel handlers.

## Model

| member | source | states |
|---|---|---|
| `Core.SourceMessages` | internal/domain/account.go:42-58 | each error the Go code raises itself is reported with the source's text: "account is not active" and "insufficient funds" here, the currency-mismatch texts of internal/domain/money.go:41,52, and the handler texts of the create, process and cancel handlers |
| `Core.Clock.constructor` | internal/domain/account.go:30 | the clock that stands for `time.Now()` starts at the given reading |
| `Core.Clock.Tick` | internal/domain/account.go:52 | each call of `time.Now()` returns a reading exactly one later than the previous, so readings strictly increase |
| `MoneyValue.NewMoney` | internal/domain/money.go:20-25 | the value has exactly the given amount and currency |
| `MoneyValue.SignTrichotomy` | internal/domain/money.go:27-37 | IsZero, IsNegative and IsPositive are decided by comparing the amount with 0, and exactly one of them holds |
| `MoneyValue.Money.Add` | internal/domain/money.go:39-48 | different currencies give the add-mismatch error; otherwise the result is the sum, in the receiver's currency, for negative operands too |
| `MoneyValue.Money.Subtract` | internal/domain/money.go:50-59 | different currencies give the subtract-mismatch error; otherwise the result is the difference, which goes negative when the argument is larger (no floor) |
| `MoneyValue.AddThenSubtract` | internal/domain/money.go:39-59 | adding and then subtracting a same-currency amount returns the original value |
| `MoneyValue.SubtractThenAdd` | internal/domain/money.go:39-59 | subtracting and then adding a same-currency amount returns the original value |
| `MoneyValue.AddCommutes` | internal/domain/money.go:39-48 | same-currency addition does not depend on operand order |
| `Accounts.NewAccountData` | internal/domain/account.go:29-40 | a new account is Active, holds the initial balance, number and holder, and has createdAt equal to updatedAt |
| `Accounts.AccountData.Debit` | internal/domain/account.go:42-54 | a non-Active account gives "account is not active" before funds are checked; balance below the amount gives "insufficient funds"; otherwise only balance and updatedAt change, the balance drops by exactly the amount and stays non-negative; only the amounts are compared, never the currencies |
| `Accounts.AccountData.Credit` | internal/domain/account.go:56-64 | a non-Active account gives "account is not active"; otherwise only balance and updatedAt change and the balance rises by exactly the amount, with no upper bound |
| `Accounts.AccountData.Block` | internal/domain/account.go:66-69 | from any state, sets Blocked and updatedAt and nothing else |
| `Accounts.AccountData.Activate` | internal/domain/account.go:71-74 | from any state, sets Active and updatedAt and nothing else |
| `Accounts.DebitThenCredit` | internal/domain/account.go:42-64 | a successful debit followed by a credit of the same amount restores the balance |
| `Accounts.BlockedRefusesMovements` | internal/domain/account.go:42-74 | blocking keeps the balance, makes every debit and credit fail with "account is not active", and activation undoes it |
| `Accounts.MovementsAndNonNegativeBalance` | internal/domain/account.go:47-61 | a debit keeps a non-negative balance non-negative; a credit does so only for a non-negative amount |
| `Accounts.NegativeCreditOverdraws` | internal/domain/account.go:56-64 | crediting -1 to an empty active account leaves the balance at -1 |
| `Accounts.Account.constructor` | internal/domain/account.go:29-40 | opening an account reads the clock once and yields `NewAccountData` |
| `Accounts.Account.Load` | internal/infrastructure/repository/repository_base.go:39-45 | the object built from a stored row holds a copy of exactly that row |
| `Accounts.Account.Debit` | internal/domain/account.go:42-54 | in-place debit: on error nothing changes and the clock is not read; on success the new state is the value-level debit and updatedAt advances |
| `Accounts.Account.Credit` | internal/domain/account.go:56-64 | in-place credit: on error nothing changes and the clock is not read; on success the new state is the value-level credit and updatedAt advances |
| `Accounts.Account.Block` | internal/domain/account.go:66-69 | in place, the new state is the value-level Block at a fresh clock reading |
| `Accounts.Account.Activate` | internal/domain/account.go:71-74 | in place, the new state is the value-level Activate at a fresh clock reading |
| `Transactions.NewTransactionData` | internal/domain/transaction.go:42-53 | a new transaction is Pending with no processedAt, no account ids and an empty reference, and has createdAt equal to updatedAt |
| `Transactions.NewDepositData` | internal/domain/transaction.go:55-59 | the deposit factory sets only the destination id, to the given one |
| `Transactions.NewWithdrawData` | internal/domain/transaction.go:61-65 | the withdraw factory sets only the source id, to the given one |
| `Transactions.NewTransferData` | internal/domain/transaction.go:67-72 | the transfer factory sets both ids, to the given ones |
| `Transactions.TransactionData.Complete` | internal/domain/transaction.go:74-79 | from any status, sets Completed and processedAt = updatedAt = now; amount, type, description, ids and reference unchanged |
| `Transactions.TransactionData.Fail` | internal/domain/transaction.go:81-86 | from any status, sets Failed and processedAt = updatedAt = now; everything else unchanged |
| `Transactions.TransactionData.Cancel` | internal/domain/transaction.go:88-91 | from any status, sets Cancelled and refreshes updatedAt; processedAt stays as it was |
| `Transactions.TransactionData.SetReference` | internal/domain/transaction.go:93-96 | changes only reference and updatedAt |
| `Transactions.ProcessedAtLifecycle` | internal/domain/transaction.go:42-91 | processedAt is unset on a new transaction, set by Complete and Fail, and still unset after Cancel |
| `Transactions.TerminalStatesNotEnforced` | internal/domain/transaction.go:74-91 | a completed or cancelled transaction can still be failed, cancelled or completed |
| `Transactions.Transaction.constructor` | internal/domain/transaction.go:42-53 | reads the clock once and yields `NewTransactionData` |
| `Transactions.Transaction.Load` | internal/infrastructure/repository/repository_base.go:39-45 | the object built from a stored row holds a copy of exactly that row |
| `Transactions.Transaction.Complete` | internal/domain/transaction.go:74-79 | in place, the new state is the value-level Complete at a fresh clock reading |
| `Transactions.Transaction.Fail` | internal/domain/transaction.go:81-86 | in place, the new state is the value-level Fail at a fresh clock reading |
| `Transactions.Transaction.Cancel` | internal/domain/transaction.go:88-91 | in place, the new state is the value-level Cancel at a fresh clock reading |
| `Transactions.Transaction.SetReference` | internal/domain/transaction.go:93-96 | in place, the new state is the value-level SetReference at a fresh clock reading |
| `Transactions.NewDepositTransaction` | internal/domain/transaction.go:55-59 | a fresh object equal to the deposit factory's value |
| `Transactions.NewWithdrawTransaction` | internal/domain/transaction.go:61-65 | a fresh object equal to the withdraw factory's value |
| `Transactions.NewTransferTransaction` | internal/domain/transaction.go:67-72 | a fresh object equal to the transfer factory's value |
| `Repository.Store.constructor` | internal/infrastructure/repository/repository_base.go:35-37 | a store over the given rows |
| `Repository.Store.GetByID` | internal/infrastructure/repository/repository_base.go:39-45 | returns the stored value when the id is present, otherwise NotFound |
| `Repository.Store.Update` | internal/infrastructure/repository/repository_base.go:94-96 | overwrites or inserts the row under its id, unless the write is refused, in which case nothing changes |
| `Repository.Store.Create` | internal/infrastructure/repository/repository_base.go:90-92 | inserts a row under a new id; an existing or refused id is an error and nothing changes |
| `Repository.Store.Delete` | internal/infrastructure/repository/repository_base.go:98-101 | removes the row, unless the write is refused |
| `Repository.Normalize` | internal/infrastructure/repository/repository_base.go:56-61 | page <= 0 becomes 1 and page size <= 0 becomes 10; other values are kept |
| `Repository.Offset` | internal/infrastructure/repository/repository_base.go:71 | the offset (page-1)*size is non-negative and a multiple of the page size |
| `Repository.TotalPages` | internal/infrastructure/repository/repository_base.go:76-79 | the ceiling of total/size: 0 for no rows, otherwise (pages-1)*size < total <= pages*size |
| `Repository.PageSlice` | internal/infrastructure/repository/repository_base.go:71-72 | the rows from the offset, at most a page of them, in order; empty past the end |
| `Repository.Paginate` | internal/infrastructure/repository/repository_base.go:55-88 | the response echoes the normalised page and size, the total, the page's rows and the page count |
| `Repository.GetPaginated` | internal/infrastructure/repository/repository_base.go:55-88 | the step-by-step computation (reassigning page and size, incrementing the page count on a remainder) gives `Paginate` |
| `Repository.EveryRowOnItsPage` | internal/infrastructure/repository/repository_base.go:71-79 | every row appears, in its place, on a page that lies within TotalPages |
| `Repository.LastAndBeyond` | internal/infrastructure/repository/repository_base.go:71-79 | the last page holds total minus offset rows; a page past the last is empty |
| `ProcessHandler.ApplyDeposit` | internal/application/handlers/process_transaction_handler.go:69-81 | a deposit's account work succeeds only when the destination exists; any failure other than a refused write leaves the accounts as they were |
| `ProcessHandler.ApplyWithdraw` | internal/application/handlers/process_transaction_handler.go:83-95 | a withdrawal's account work succeeds only when the source exists; any failure other than a refused write leaves the accounts as they were |
| `ProcessHandler.ApplyTransfer` | internal/application/handlers/process_transaction_handler.go:97-128 | a transfer's account work succeeds only when both accounts exist; any failure other than a refused write leaves the accounts as they were |
| `ProcessHandler.ApplyByType` | internal/application/handlers/process_transaction_handler.go:40-49 | the type switch: a deposit's work succeeds only with an existing destination, a withdrawal's only with an existing source, a transfer's only with both; a failure other than a refused write leaves the accounts as they were |
| `ProcessHandler.Process` | internal/application/handlers/process_transaction_handler.go:26-67 | an unknown id gives NotFound, a non-Pending one gives "transaction is not in pending status", and an unknown type gives "invalid transaction type", each changing nothing and without marking Failed; when the account work fails, its error is returned, the accounts are as the work left them, and the transaction is stored Failed at the last clock reading unless that write is refused; when it succeeds, the transaction is stored and returned Completed exactly when its write is accepted, and otherwise the refused write is reported with the transaction row untouched |
| `ProcessHandler.ProcessDeposit` | internal/application/handlers/process_transaction_handler.go:69-81 | in place: load the destination, credit it, save it; the effect is `ApplyDeposit` |
| `ProcessHandler.ProcessWithdraw` | internal/application/handlers/process_transaction_handler.go:83-95 | in place: load the source, debit it, save it; the effect is `ApplyWithdraw` |
| `ProcessHandler.ProcessTransfer` | internal/application/handlers/process_transaction_handler.go:97-128 | in place: load both accounts, debit, credit, then save source and destination in that order; the effect is `ApplyTransfer` |
| `ProcessHandler.Handle` | internal/application/handlers/process_transaction_handler.go:26-67 | the handler's reply and its effect on both stores and the clock are exactly `Process` |
| `ProcessLemmas.DepositSucceeds` | internal/application/handlers/process_transaction_handler.go:41-81 | a successful deposit raises the stored destination balance by the amount, touches no other account, raises the total by the amount, and stores the transaction Completed with processedAt set |
| `ProcessLemmas.WithdrawSucceeds` | internal/application/handlers/process_transaction_handler.go:43-95 | a successful withdrawal lowers the stored source balance by the amount, never below zero, touches no other account, and stores the transaction Completed |
| `ProcessLemmas.TransferConserves` | internal/application/handlers/process_transaction_handler.go:97-128 | a transfer between two different accounts moves exactly the amount and keeps the total of all balances |
| `ProcessLemmas.SelfTransferRaisesBalance` | internal/application/handlers/process_transaction_handler.go:99-127 | a transfer from an account to itself raises its stored balance, and the total, by the amount |
| `ProcessLemmas.TransferDebitFirst` | internal/application/handlers/process_transaction_handler.go:109-119 | the debit is tried before the credit: with too little money in the source, the error is "insufficient funds" even if the destination is inactive, and no account is written |
| `ProcessLemmas.FailureLeavesAccounts` | internal/application/handlers/process_transaction_handler.go:51-55 | whenever the account work stops short of a write, the accounts are untouched, the transaction is stored Failed with processedAt set (unless that write is refused, which is ignored), and the account work's error is returned |
| `ProcessLemmas.DepositRefused` | internal/application/handlers/process_transaction_handler.go:69-81 | a deposit to a missing destination gives NotFound, to a non-Active one "account is not active", and to one that refuses the write the write error; in each case no balance changes and the transaction is stored Failed |
| `ProcessLemmas.WithdrawRefused` | internal/application/handlers/process_transaction_handler.go:83-95 | a withdrawal from a missing source gives NotFound, from a non-Active one "account is not active", from one short of money "insufficient funds", from one that refuses the write the write error, in that precedence; no balance changes and the transaction is stored Failed |
| `ProcessLemmas.TransferRefused` | internal/application/handlers/process_transaction_handler.go:97-121 | a transfer with a missing account gives NotFound, a non-Active source "account is not active", a source short of money "insufficient funds", a non-Active destination "account is not active", a source refusing its write the write error, in that precedence; no balance changes and the transaction is stored Failed |
| `ProcessLemmas.ProcessedOnce` | internal/application/handlers/process_transaction_handler.go:36-62 | after any run that reaches the point of storing an outcome and whose transaction write is accepted, processing again gives "transaction is not in pending status" and changes nothing |
| `ProcessLemmas.TransferPartialWrite` | internal/application/handlers/process_transaction_handler.go:121-127 | when the destination's write is refused after the source's succeeded, the source stays debited, the transaction is Failed and the total drops by the amount |
| `ProcessLemmas.LostCompletionCreditsTwice` | internal/application/handlers/process_transaction_handler.go:57-62 | when only the final transaction write is refused, the deposit is saved but the transaction stays Pending, and a second run credits again |
| `CancelHandler.Cancel` | internal/application/handlers/cancel_transaction_handler.go:21-45 | an unknown id gives NotFound; a non-Pending one gives "only pending transactions can be cancelled" and is not written; a Pending one becomes Cancelled, keeps processedAt, type, amount, description, reference and ids, and is written once; a refused write is returned as the error |
| `CancelHandler.Handle` | internal/application/handlers/cancel_transaction_handler.go:21-45 | the handler's reply and its effect on the transaction store and the clock are exactly `Cancel`; it can touch no account |
| `CancelHandler.CancelKeepsProcessedAtUnset` | internal/application/handlers/cancel_transaction_handler.go:35 | a cancelled transaction that had no processedAt still has none |
| `CancelHandler.CancelOnce` | internal/application/handlers/cancel_transaction_handler.go:31-33 | a second cancellation is refused and changes nothing |
| `CreateHandler.Validate` | internal/application/handlers/create_transaction_handler.go:25-47 | a deposit without destination, a withdrawal without source, a transfer missing either id, and an unknown type each get their own error; every other command passes |
| `CreateHandler.Build` | internal/application/handlers/create_transaction_handler.go:27-44 | the built transaction is Pending with the command's type, amount and description, and only the ids its type uses |
| `CreateHandler.Create` | internal/application/handlers/create_transaction_handler.go:23-56 | it succeeds exactly when the command is valid and the fresh id is neither taken nor refused; a validation error creates nothing and reads no clock; a refused insert returns its error; success adds exactly one transaction, the one the type's factory builds |
| `CreateHandler.Handle` | internal/application/handlers/create_transaction_handler.go:23-56 | the handler's reply and its effect on the transaction store and the clock are exactly `Create` |
| `UpdateAccountHandler.UpdateAccount` | internal/application/handlers/update_account_handler.go:19-40 | an unknown id gives NotFound and writes nothing; a non-empty name replaces the holder name and an empty one keeps it; number, balance, status and the rest are preserved; a refused write is returned as the error |
| `UpdateAccountHandler.Handle` | internal/application/handlers/update_account_handler.go:19-40 | the handler's reply and its effect on the account store are exactly `UpdateAccount` |
| `UpdateAccountHandler.EmptyNameStillWrites` | internal/application/handlers/update_account_handler.go:28-35 | with an empty name the stored account is unchanged, but the write still happens, so a refused write is still reported |
| `Scenarios.CancelledIsNotProcessed` | internal/application/handlers/process_transaction_handler.go:36-38 | a cancelled transaction is refused by processing |
| `Scenarios.ProcessedIsNotCancelled` | internal/application/handlers/cancel_transaction_handler.go:31-33 | a completed transaction is refused by cancellation |
| `Scenarios.CreatedIsPending` | internal/application/handlers/create_transaction_handler.go:26-44 | a created transaction is stored Pending under its id, with the ids its type needs |
| `Scenarios.WithdrawScenario` | internal/application/handlers/process_transaction_handler_test.go:62-99 | withdrawing 3000 USD from 10000 USD completes with processedAt set and leaves 7000 USD |
| `Scenarios.InsufficientFundsScenario` | internal/application/handlers/process_transaction_handler_test.go:145-185 | withdrawing 2000 USD from 1000 USD reports "insufficient funds", stores Failed, leaves 1000 USD, and a second run is refused as not pending |

## Left out

- `MoneyValue.Money.Add`, `MoneyValue.Money.Subtract`: use unbounded integers; int64 wrap-around of `+` and `-` is not modelled.
- `Accounts.AccountData.Debit`, `Accounts.AccountData.Credit`: use unbounded integers; int64 wrap-around of `-=` and `+=` is not modelled.
- `Money.String` and `Money.ToFloat` are floating-point display helpers and are not modelled.
- `Repository.Store.GetByID`: reports every failed read as NotFound; other database errors on reads are not distinguished, though they would have the same effect (the error is returned).
- `Repository.Store.Update`: a plain overwrite. GORM's automatic `UpdatedAt` stamping on save, its unique index on `Reference` and other database constraints are not modelled; a refused write is expressed only through the `rejected` set.
- `Repository.Offset`, `Repository.Paginate`, `Repository.GetPaginated`, `Repository.LastAndBeyond`: compute over unbounded integers. In Go, `(page - 1) * pageSize` (internal/infrastructure/repository/repository_base.go:71) is an `int` product of values the HTTP layer parses from the query string (internal/api/http/account_handler.go:89-90). A large enough page, such as 10^18+1 with page size 10, wraps to a negative offset there, and the database's answer for it is not modelled. For such a page the model still promises an empty result.
- `CreateHandler.Create`: lets every create through when the id is fresh and not refused. In the real store, every transaction built by the factories has the empty `Reference`, and `Reference` has a unique index (internal/domain/transaction.go:36, migrated at internal/infrastructure/database.go:105). The database would therefore refuse every create after the first one that left `Reference` empty. The model expresses that refusal only through the `rejected` set.
- `Repository.Paginate`: takes the query's rows in the database's order as a sequence. Filtering and ordering (`ILIKE`, date ranges, `ORDER BY created_at DESC`) are database semantics and are not modelled. `GetAll` is not modelled for the same reason.
- UUID generation and wall-clock time are not modelled: ids are supplied by the caller, and time comes from the injected clock.
- Concurrency is not modelled: requests against the same account could race in the real system, but the model runs them one after another.
- The HTTP layer, routing, database connection and migrations, seeding, handler registration and the read-only forwarding handlers are I/O glue and are not modelled.
- A nil account id makes the Go handler panic. The model reports this as the error `NilAccountId` instead of a crash; in both cases nothing is written.
