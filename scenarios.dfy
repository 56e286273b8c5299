/** How the handlers combine: the status machine across requests, and the
    end-to-end withdrawals the ledger documents. */
module Scenarios {
  import opened Core
  import opened MoneyValue
  import opened Accounts
  import opened Transactions
  import opened ProcessHandler
  import opened CancelHandler
  import opened CreateHandler

  /** A cancelled transaction can never be processed afterwards. */
  lemma CancelledIsNotProcessed(
    accounts: map<Uuid, AccountData>, accountsRejected: set<Uuid>,
    transactions: map<Uuid, TransactionData>, transactionsRejected: set<Uuid>,
    t: Time, id: Uuid)
    requires id in transactions && transactions[id].id == id
    requires Cancel(transactions, transactionsRejected, t, id).result.Ok?
    ensures var c := Cancel(transactions, transactionsRejected, t, id);
      Process(accounts, accountsRejected, c.transactions, transactionsRejected, c.time, id)
        == Processed(Err(NotPending), accounts, c.transactions, c.time)
  {
  }

  /** A processed transaction can never be cancelled afterwards. */
  lemma ProcessedIsNotCancelled(
    accounts: map<Uuid, AccountData>, accountsRejected: set<Uuid>,
    transactions: map<Uuid, TransactionData>, transactionsRejected: set<Uuid>,
    t: Time, id: Uuid)
    requires id in transactions && transactions[id].id == id
    requires Process(accounts, accountsRejected, transactions, transactionsRejected, t, id).result.Ok?
    ensures var p := Process(accounts, accountsRejected, transactions, transactionsRejected, t, id);
      Cancel(p.transactions, transactionsRejected, p.time, id)
        == CancelOutcome(Err(OnlyPendingCancellable), p.transactions, p.time)
  {
  }

  /** A freshly created transaction is stored Pending under its own id, with
      the ids its type needs, so processing it passes every guard. */
  lemma CreatedIsPending(transactions: map<Uuid, TransactionData>, rejected: set<Uuid>, t: Time,
                         cmd: CreateTransactionCommand, id: Uuid)
    requires Create(transactions, rejected, t, cmd, id).result.Ok?
    ensures var c := Create(transactions, rejected, t, cmd, id);
      && id in c.transactions && c.transactions[id].id == id
      && c.transactions[id].status == Pending && !c.transactions[id].txType.Other?
      && (c.transactions[id].txType == Deposit ==> c.transactions[id].toAccountId.Some?)
      && (c.transactions[id].txType == Withdraw ==> c.transactions[id].fromAccountId.Some?)
      && (c.transactions[id].txType == Transfer ==>
            c.transactions[id].fromAccountId.Some? && c.transactions[id].toAccountId.Some?)
  {
  }

  /** Account A holds 10000 USD; a withdrawal of 3000 USD from A is created
      and processed: it completes, `processedAt` is set, A holds 7000 USD. */
  lemma WithdrawScenario()
    ensures
      var a := NewAccountData(1, "12345", "John Doe", NewMoney(10000, USD), 0);
      var accounts := map[1 := a];
      var cmd := CreateTransactionCommand(Withdraw, NewMoney(3000, USD), Some(1), None, "Withdraw");
      var c := Create(map[], {}, 1, cmd, 2);
      var p := Process(accounts, {}, c.transactions, {}, c.time, 2);
      && c.result.Ok?
      && p.result.Ok? && p.result.value.status == Completed && p.result.value.processedAt.Some?
      && 1 in p.accounts && p.accounts[1].balance == NewMoney(7000, USD)
  {
  }

  /** Account A holds 1000 USD; withdrawing 2000 USD reports "insufficient
      funds", stores the transaction Failed, leaves A at 1000 USD, and a
      second attempt is refused as not pending. */
  lemma InsufficientFundsScenario()
    ensures
      var a := NewAccountData(1, "12345", "John Doe", NewMoney(1000, USD), 0);
      var accounts := map[1 := a];
      var cmd := CreateTransactionCommand(Withdraw, NewMoney(2000, USD), Some(1), None, "Withdraw");
      var c := Create(map[], {}, 1, cmd, 2);
      var p := Process(accounts, {}, c.transactions, {}, c.time, 2);
      var q := Process(p.accounts, {}, p.transactions, {}, p.time, 2);
      && p.result == Err(InsufficientFunds) && Message(p.result.error) == "insufficient funds"
      && 2 in p.transactions && p.transactions[2].status == Failed
      && p.accounts == accounts
      && q.result == Err(NotPending)
  {
  }
}
