/** What processing promises, stated over the `Process` function. */
module ProcessLemmas {
  import opened Core
  import opened MoneyValue
  import opened Accounts
  import opened Transactions
  import opened Balances
  import opened ProcessHandler

  /** Every stored transaction sits under its own id. */
  ghost predicate TransactionsKeyed(transactions: map<Uuid, TransactionData>) {
    forall k :: k in transactions ==> transactions[k].id == k
  }

  /** A pending transaction of a known type whose stored row is reachable. */
  ghost predicate PendingAt(transactions: map<Uuid, TransactionData>, id: Uuid, txType: TxType) {
    id in transactions && transactions[id].id == id
    && transactions[id].status == Pending && transactions[id].txType == txType
  }

  /** A successful deposit raises the stored destination balance by the
      amount, touches no other account, adds the amount to the total, and
      stores the transaction Completed with `processedAt` set. */
  lemma DepositSucceeds(
    accounts: map<Uuid, AccountData>, accountsRejected: set<Uuid>,
    transactions: map<Uuid, TransactionData>, transactionsRejected: set<Uuid>,
    t: Time, id: Uuid, to: Uuid)
    requires AccountsKeyed(accounts) && PendingAt(transactions, id, Deposit)
    requires transactions[id].toAccountId == Some(to) && to in accounts
    requires accounts[to].status == Active
    requires to !in accountsRejected && id !in transactionsRejected
    ensures var p := Process(accounts, accountsRejected, transactions, transactionsRejected, t, id);
      var amount := transactions[id].amount.amount;
      && p.result.Ok?
      && p.result.value.status == Completed && p.result.value.processedAt.Some?
      && id in p.transactions && p.transactions[id] == p.result.value
      && to in p.accounts
      && p.accounts[to].balance.amount == accounts[to].balance.amount + amount
      && p.accounts == accounts[to := p.accounts[to]]
      && TotalBalance(p.accounts) == TotalBalance(accounts) + amount
  {
    var p := Process(accounts, accountsRejected, transactions, transactionsRejected, t, id);
    var credited := accounts[to].Credit(transactions[id].amount, t + 1).value;
    assert p.accounts == accounts[to := credited];
    TotalAfterUpdate(accounts, to, credited);
  }

  /** A successful withdrawal lowers the stored source balance by the
      amount, never below zero, and touches no other account. */
  lemma WithdrawSucceeds(
    accounts: map<Uuid, AccountData>, accountsRejected: set<Uuid>,
    transactions: map<Uuid, TransactionData>, transactionsRejected: set<Uuid>,
    t: Time, id: Uuid, from: Uuid)
    requires AccountsKeyed(accounts) && PendingAt(transactions, id, Withdraw)
    requires transactions[id].fromAccountId == Some(from) && from in accounts
    requires accounts[from].status == Active
    requires transactions[id].amount.amount <= accounts[from].balance.amount
    requires from !in accountsRejected && id !in transactionsRejected
    ensures var p := Process(accounts, accountsRejected, transactions, transactionsRejected, t, id);
      var amount := transactions[id].amount.amount;
      && p.result.Ok?
      && p.result.value.status == Completed && p.result.value.processedAt.Some?
      && id in p.transactions && p.transactions[id] == p.result.value
      && from in p.accounts
      && p.accounts[from].balance.amount == accounts[from].balance.amount - amount
      && p.accounts[from].balance.amount >= 0
      && p.accounts == accounts[from := p.accounts[from]]
      && TotalBalance(p.accounts) == TotalBalance(accounts) - amount
  {
    var p := Process(accounts, accountsRejected, transactions, transactionsRejected, t, id);
    var debited := accounts[from].Debit(transactions[id].amount, t + 1).value;
    assert p.accounts == accounts[from := debited];
    TotalAfterUpdate(accounts, from, debited);
  }

  /** A successful transfer between two different accounts moves exactly
      the amount from one to the other and keeps the total of all balances. */
  lemma TransferConserves(
    accounts: map<Uuid, AccountData>, accountsRejected: set<Uuid>,
    transactions: map<Uuid, TransactionData>, transactionsRejected: set<Uuid>,
    t: Time, id: Uuid, from: Uuid, to: Uuid)
    requires AccountsKeyed(accounts) && PendingAt(transactions, id, Transfer)
    requires transactions[id].fromAccountId == Some(from) && transactions[id].toAccountId == Some(to)
    requires from != to && from in accounts && to in accounts
    requires accounts[from].status == Active && accounts[to].status == Active
    requires transactions[id].amount.amount <= accounts[from].balance.amount
    requires from !in accountsRejected && to !in accountsRejected && id !in transactionsRejected
    ensures var p := Process(accounts, accountsRejected, transactions, transactionsRejected, t, id);
      var amount := transactions[id].amount.amount;
      && p.result.Ok? && p.result.value.status == Completed
      && from in p.accounts && to in p.accounts
      && p.accounts[from].balance.amount == accounts[from].balance.amount - amount
      && p.accounts[to].balance.amount == accounts[to].balance.amount + amount
      && p.accounts == accounts[from := p.accounts[from]][to := p.accounts[to]]
      && TotalBalance(p.accounts) == TotalBalance(accounts)
  {
    var p := Process(accounts, accountsRejected, transactions, transactionsRejected, t, id);
    var amount := transactions[id].amount;
    var debited := accounts[from].Debit(amount, t + 1).value;
    var credited := accounts[to].Credit(amount, t + 2).value;
    assert p.accounts == accounts[from := debited][to := credited];
    TotalAfterUpdate(accounts, from, debited);
    TotalAfterUpdate(accounts[from := debited], to, credited);
  }

  /** A transfer from an account to itself loads two copies; the credited
      copy is saved last, so the balance RISES by the amount, and so does
      the total of all balances. */
  lemma SelfTransferRaisesBalance(
    accounts: map<Uuid, AccountData>, accountsRejected: set<Uuid>,
    transactions: map<Uuid, TransactionData>, transactionsRejected: set<Uuid>,
    t: Time, id: Uuid, a: Uuid)
    requires AccountsKeyed(accounts) && PendingAt(transactions, id, Transfer)
    requires transactions[id].fromAccountId == Some(a) && transactions[id].toAccountId == Some(a)
    requires a in accounts && accounts[a].status == Active
    requires transactions[id].amount.amount <= accounts[a].balance.amount
    requires a !in accountsRejected && id !in transactionsRejected
    ensures var p := Process(accounts, accountsRejected, transactions, transactionsRejected, t, id);
      var amount := transactions[id].amount.amount;
      && p.result.Ok? && p.result.value.status == Completed
      && a in p.accounts
      && p.accounts[a].balance.amount == accounts[a].balance.amount + amount
      && TotalBalance(p.accounts) == TotalBalance(accounts) + amount
  {
    var p := Process(accounts, accountsRejected, transactions, transactionsRejected, t, id);
    var amount := transactions[id].amount;
    var debited := accounts[a].Debit(amount, t + 1).value;
    var credited := accounts[a].Credit(amount, t + 2).value;
    assert accounts[a := debited][a := credited] == accounts[a := credited];
    assert p.accounts == accounts[a := credited];
    TotalAfterUpdate(accounts, a, credited);
  }

  /** The debit runs before the credit: a source without enough money
      reports "insufficient funds" even when the destination is inactive,
      and no account is written. */
  lemma TransferDebitFirst(
    accounts: map<Uuid, AccountData>, accountsRejected: set<Uuid>,
    transactions: map<Uuid, TransactionData>, transactionsRejected: set<Uuid>,
    t: Time, id: Uuid, from: Uuid, to: Uuid)
    requires PendingAt(transactions, id, Transfer)
    requires transactions[id].fromAccountId == Some(from) && transactions[id].toAccountId == Some(to)
    requires from in accounts && to in accounts
    requires accounts[from].status == Active && accounts[to].status != Active
    requires accounts[from].balance.amount < transactions[id].amount.amount
    ensures var p := Process(accounts, accountsRejected, transactions, transactionsRejected, t, id);
      p.result == Err(InsufficientFunds) && p.accounts == accounts
  {
  }

  /** The transaction row under `id` after a failed run: stamped Failed at
      the run's last clock reading, unless that write was refused. */
  ghost predicate StoredFailed(p: Processed, transactions: map<Uuid, TransactionData>, rejected: set<Uuid>, id: Uuid)
    requires id in transactions
  {
    && p.transactions == (if id in rejected then transactions else transactions[id := transactions[id].Fail(p.time)])
    && (id !in rejected ==> p.transactions[id].status == Failed && p.transactions[id].processedAt == Some(p.time))
  }

  /** Whatever stops the account work short of a write (a missing account,
      an inactive account, too little money) leaves every account as it
      was, stores the transaction Failed unless that write is refused, and
      reports the error the account work stopped with. */
  lemma FailureLeavesAccounts(
    accounts: map<Uuid, AccountData>, accountsRejected: set<Uuid>,
    transactions: map<Uuid, TransactionData>, transactionsRejected: set<Uuid>,
    t: Time, id: Uuid)
    requires id in transactions && transactions[id].id == id
    requires transactions[id].status == Pending && !transactions[id].txType.Other?
    requires var applied := ApplyByType(accounts, accountsRejected, transactions[id], t);
      applied.err.Some? && applied.err.value != NilAccountId && applied.err.value != WriteRejected
    ensures var p := Process(accounts, accountsRejected, transactions, transactionsRejected, t, id);
      var applied := ApplyByType(accounts, accountsRejected, transactions[id], t);
      && p.result == Err(applied.err.value)
      && p.accounts == accounts
      && StoredFailed(p, transactions, transactionsRejected, id)
  {
  }

  /** A deposit whose destination is missing, not Active, or refuses the
      write fails with that cause, changes no balance and is stored Failed. */
  lemma DepositRefused(
    accounts: map<Uuid, AccountData>, accountsRejected: set<Uuid>,
    transactions: map<Uuid, TransactionData>, transactionsRejected: set<Uuid>,
    t: Time, id: Uuid, to: Uuid)
    requires AccountsKeyed(accounts) && PendingAt(transactions, id, Deposit)
    requires transactions[id].toAccountId == Some(to)
    requires to !in accounts || accounts[to].status != Active || to in accountsRejected
    ensures var p := Process(accounts, accountsRejected, transactions, transactionsRejected, t, id);
      var cause := if to !in accounts then NotFound
                   else if accounts[to].status != Active then AccountNotActive
                   else WriteRejected;
      && p.result == Err(cause)
      && p.accounts == accounts
      && StoredFailed(p, transactions, transactionsRejected, id)
  {
  }

  /** A withdrawal whose source is missing, not Active, short of money, or
      refuses the write fails with that cause, in that order of precedence,
      changes no balance and is stored Failed. */
  lemma WithdrawRefused(
    accounts: map<Uuid, AccountData>, accountsRejected: set<Uuid>,
    transactions: map<Uuid, TransactionData>, transactionsRejected: set<Uuid>,
    t: Time, id: Uuid, from: Uuid)
    requires AccountsKeyed(accounts) && PendingAt(transactions, id, Withdraw)
    requires transactions[id].fromAccountId == Some(from)
    requires from !in accounts || accounts[from].status != Active
          || accounts[from].balance.amount < transactions[id].amount.amount || from in accountsRejected
    ensures var p := Process(accounts, accountsRejected, transactions, transactionsRejected, t, id);
      var cause := if from !in accounts then NotFound
                   else if accounts[from].status != Active then AccountNotActive
                   else if accounts[from].balance.amount < transactions[id].amount.amount then InsufficientFunds
                   else WriteRejected;
      && p.result == Err(cause)
      && p.accounts == accounts
      && StoredFailed(p, transactions, transactionsRejected, id)
  {
  }

  /** A transfer fails, changing no balance, when an account is missing,
      the source is not Active or short of money, the destination is not
      Active, or the source refuses its write; the cause reported follows
      the order in which the handler meets them. */
  lemma TransferRefused(
    accounts: map<Uuid, AccountData>, accountsRejected: set<Uuid>,
    transactions: map<Uuid, TransactionData>, transactionsRejected: set<Uuid>,
    t: Time, id: Uuid, from: Uuid, to: Uuid)
    requires AccountsKeyed(accounts) && PendingAt(transactions, id, Transfer)
    requires transactions[id].fromAccountId == Some(from) && transactions[id].toAccountId == Some(to)
    requires from !in accounts || to !in accounts || accounts[from].status != Active
          || accounts[from].balance.amount < transactions[id].amount.amount
          || accounts[to].status != Active || from in accountsRejected
    ensures var p := Process(accounts, accountsRejected, transactions, transactionsRejected, t, id);
      var cause := if from !in accounts || to !in accounts then NotFound
                   else if accounts[from].status != Active then AccountNotActive
                   else if accounts[from].balance.amount < transactions[id].amount.amount then InsufficientFunds
                   else if accounts[to].status != Active then AccountNotActive
                   else WriteRejected;
      && p.result == Err(cause)
      && p.accounts == accounts
      && StoredFailed(p, transactions, transactionsRejected, id)
  {
  }

  /** Once a run has stored its outcome, the transaction is no longer
      Pending: processing it again reports "transaction is not in pending
      status" and changes nothing. */
  lemma ProcessedOnce(
    accounts: map<Uuid, AccountData>, accountsRejected: set<Uuid>,
    transactions: map<Uuid, TransactionData>, transactionsRejected: set<Uuid>,
    t: Time, id: Uuid)
    requires TransactionsKeyed(transactions) && id in transactions
    requires id !in transactionsRejected
    requires var p := Process(accounts, accountsRejected, transactions, transactionsRejected, t, id);
      p.result != Err(NilAccountId) && p.result != Err(InvalidType)
    ensures var p := Process(accounts, accountsRejected, transactions, transactionsRejected, t, id);
      var q := Process(p.accounts, accountsRejected, p.transactions, transactionsRejected, p.time, id);
      q == Processed(Err(NotPending), p.accounts, p.transactions, p.time)
  {
  }

  /** The two account writes of a transfer are not atomic: when the source
      is saved and saving the destination is refused, the source stays
      debited, the destination is unchanged, the transaction is stored
      Failed, and the total of all balances has dropped by the amount. */
  lemma TransferPartialWrite(
    accounts: map<Uuid, AccountData>, accountsRejected: set<Uuid>,
    transactions: map<Uuid, TransactionData>, transactionsRejected: set<Uuid>,
    t: Time, id: Uuid, from: Uuid, to: Uuid)
    requires AccountsKeyed(accounts) && PendingAt(transactions, id, Transfer)
    requires transactions[id].fromAccountId == Some(from) && transactions[id].toAccountId == Some(to)
    requires from != to && from in accounts && to in accounts
    requires accounts[from].status == Active && accounts[to].status == Active
    requires transactions[id].amount.amount <= accounts[from].balance.amount
    requires from !in accountsRejected && to in accountsRejected && id !in transactionsRejected
    ensures var p := Process(accounts, accountsRejected, transactions, transactionsRejected, t, id);
      var amount := transactions[id].amount.amount;
      && p.result == Err(WriteRejected)
      && from in p.accounts && to in p.accounts
      && p.accounts[from].balance.amount == accounts[from].balance.amount - amount
      && p.accounts[to] == accounts[to]
      && p.transactions[id].status == Failed
      && TotalBalance(p.accounts) == TotalBalance(accounts) - amount
  {
    var p := Process(accounts, accountsRejected, transactions, transactionsRejected, t, id);
    var debited := accounts[from].Debit(transactions[id].amount, t + 1).value;
    assert p.accounts == accounts[from := debited];
    TotalAfterUpdate(accounts, from, debited);
  }

  /** When only the final write of the transaction is refused, the deposit
      has already been saved but the transaction is still stored Pending, so
      processing it again credits the account a second time. */
  lemma LostCompletionCreditsTwice(
    accounts: map<Uuid, AccountData>, accountsRejected: set<Uuid>,
    transactions: map<Uuid, TransactionData>, transactionsRejected: set<Uuid>,
    t: Time, id: Uuid, to: Uuid)
    requires AccountsKeyed(accounts) && PendingAt(transactions, id, Deposit)
    requires transactions[id].toAccountId == Some(to) && to in accounts
    requires accounts[to].status == Active
    requires to !in accountsRejected && id in transactionsRejected
    ensures var p := Process(accounts, accountsRejected, transactions, transactionsRejected, t, id);
      var q := Process(p.accounts, accountsRejected, p.transactions, transactionsRejected, p.time, id);
      var amount := transactions[id].amount.amount;
      && p.result == Err(WriteRejected) && q.result == Err(WriteRejected)
      && p.transactions == transactions && q.transactions == transactions
      && to in q.accounts
      && q.accounts[to].balance.amount == accounts[to].balance.amount + 2 * amount
  {
    var p := Process(accounts, accountsRejected, transactions, transactionsRejected, t, id);
    var once := accounts[to].Credit(transactions[id].amount, t + 1).value;
    assert p.accounts == accounts[to := once];
    assert p.time == t + 2;
    var twice := once.Credit(transactions[id].amount, t + 3).value;
    assert Process(p.accounts, accountsRejected, p.transactions, transactionsRejected, p.time, id).accounts
        == p.accounts[to := twice];
  }
}
