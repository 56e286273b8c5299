/** Processing a pending transaction: the balance effects of its type,
    then the transaction's final status. */
module ProcessHandler {
  import opened Core
  import opened MoneyValue
  import opened Accounts
  import opened Transactions
  import opened Repository
  import opened Balances

  /** What the account work of one transaction leaves behind: the error it
      ended with, if any, the account rows and the clock. The error
      `NilAccountId` means the work stopped on a missing account id. */
  datatype Applied = Applied(err: Option<Error>, accounts: map<Uuid, AccountData>, time: Time)

  /** The outcome of a whole request: the reply and the new state. */
  datatype Processed = Processed(
    result: Result<TransactionData>,
    accounts: map<Uuid, AccountData>,
    transactions: map<Uuid, TransactionData>,
    time: Time)

  /** The account work of a deposit: credit the destination, then save it. */
  function ApplyDeposit(accounts: map<Uuid, AccountData>, rejected: set<Uuid>, tx: TransactionData, t: Time): (a: Applied)
    ensures a.err.None? ==> tx.toAccountId.Some? && tx.toAccountId.value in accounts
    ensures a.err.Some? && a.err.value != WriteRejected ==> a.accounts == accounts
  {
    match tx.toAccountId
    case None => Applied(Some(NilAccountId), accounts, t)
    case Some(to) =>
      if to !in accounts then Applied(Some(NotFound), accounts, t)
      else
        match accounts[to].Credit(tx.amount, t + 1)
        case Err(e) => Applied(Some(e), accounts, t)
        case Ok(credited) =>
          if credited.id in rejected then Applied(Some(WriteRejected), accounts, t + 1)
          else Applied(None, accounts[credited.id := credited], t + 1)
  }

  /** The account work of a withdrawal: debit the source, then save it. */
  function ApplyWithdraw(accounts: map<Uuid, AccountData>, rejected: set<Uuid>, tx: TransactionData, t: Time): (a: Applied)
    ensures a.err.None? ==> tx.fromAccountId.Some? && tx.fromAccountId.value in accounts
    ensures a.err.Some? && a.err.value != WriteRejected ==> a.accounts == accounts
  {
    match tx.fromAccountId
    case None => Applied(Some(NilAccountId), accounts, t)
    case Some(from) =>
      if from !in accounts then Applied(Some(NotFound), accounts, t)
      else
        match accounts[from].Debit(tx.amount, t + 1)
        case Err(e) => Applied(Some(e), accounts, t)
        case Ok(debited) =>
          if debited.id in rejected then Applied(Some(WriteRejected), accounts, t + 1)
          else Applied(None, accounts[debited.id := debited], t + 1)
  }

  /** The account work of a transfer: load both accounts, debit the source,
      credit the destination, and only then save the source and the
      destination, in that order. Each side works on its own copy, so when
      both ids are equal the credited copy is the one saved last. */
  function ApplyTransfer(accounts: map<Uuid, AccountData>, rejected: set<Uuid>, tx: TransactionData, t: Time): (a: Applied)
    ensures a.err.None? ==>
      && tx.fromAccountId.Some? && tx.fromAccountId.value in accounts
      && tx.toAccountId.Some? && tx.toAccountId.value in accounts
    ensures a.err.Some? && a.err.value != WriteRejected ==> a.accounts == accounts
  {
    match tx.fromAccountId
    case None => Applied(Some(NilAccountId), accounts, t)
    case Some(from) =>
      if from !in accounts then Applied(Some(NotFound), accounts, t)
      else
        match tx.toAccountId
        case None => Applied(Some(NilAccountId), accounts, t)
        case Some(to) =>
          if to !in accounts then Applied(Some(NotFound), accounts, t)
          else
            match accounts[from].Debit(tx.amount, t + 1)
            case Err(e) => Applied(Some(e), accounts, t)
            case Ok(debited) =>
              match accounts[to].Credit(tx.amount, t + 2)
              case Err(e) => Applied(Some(e), accounts, t + 1)
              case Ok(credited) =>
                if debited.id in rejected then Applied(Some(WriteRejected), accounts, t + 2)
                else if credited.id in rejected then Applied(Some(WriteRejected), accounts[debited.id := debited], t + 2)
                else Applied(None, accounts[debited.id := debited][credited.id := credited], t + 2)
  }

  /** The account work the transaction's type selects. */
  function ApplyByType(accounts: map<Uuid, AccountData>, rejected: set<Uuid>, tx: TransactionData, t: Time): (a: Applied)
    requires !tx.txType.Other?
    ensures a.err.None? ==>
      && (tx.txType != Withdraw ==> tx.toAccountId.Some? && tx.toAccountId.value in accounts)
      && (tx.txType != Deposit ==> tx.fromAccountId.Some? && tx.fromAccountId.value in accounts)
    ensures a.err.Some? && a.err.value != WriteRejected ==> a.accounts == accounts
  {
    match tx.txType
    case Deposit => ApplyDeposit(accounts, rejected, tx, t)
    case Withdraw => ApplyWithdraw(accounts, rejected, tx, t)
    case Transfer => ApplyTransfer(accounts, rejected, tx, t)
  }

  /** Processing the transaction stored under `id`, starting at clock
      reading `t`. The guards come first and change nothing; after them a
      failure of the account work marks the transaction Failed (whether
      that write succeeds is ignored) and reports the failure, while
      success marks it Completed. */
  function Process(
    accounts: map<Uuid, AccountData>, accountsRejected: set<Uuid>,
    transactions: map<Uuid, TransactionData>, transactionsRejected: set<Uuid>,
    t: Time, id: Uuid): (p: Processed)
    ensures id !in transactions ==> p == Processed(Err(NotFound), accounts, transactions, t)
    ensures id in transactions && transactions[id].status != Pending ==>
      p == Processed(Err(NotPending), accounts, transactions, t)
    ensures id in transactions && transactions[id].status == Pending && transactions[id].txType.Other? ==>
      p == Processed(Err(InvalidType), accounts, transactions, t)
    ensures p.result.Ok? ==>
      && id in transactions && transactions[id].status == Pending
      && p.result.value == transactions[id].Complete(p.time)
      && p.transactions == transactions[transactions[id].id := p.result.value]
    ensures id in transactions && transactions[id].status == Pending && !transactions[id].txType.Other? ==>
      var tx := transactions[id];
      var applied := ApplyByType(accounts, accountsRejected, tx, t);
      && (applied.err == Some(NilAccountId) ==>
            p == Processed(Err(NilAccountId), accounts, transactions, t))
      && (applied.err.Some? && applied.err.value != NilAccountId ==>
            && p.result == Err(applied.err.value)
            && p.accounts == applied.accounts
            && p.transactions == (if tx.id in transactionsRejected then transactions
                                  else transactions[tx.id := tx.Fail(p.time)]))
      && (applied.err.None? ==>
            && p.accounts == applied.accounts
            && (p.result.Ok? <==> tx.id !in transactionsRejected)
            && (tx.id in transactionsRejected ==> p.result == Err(WriteRejected) && p.transactions == transactions))
  {
    if id !in transactions then Processed(Err(NotFound), accounts, transactions, t)
    else
      var tx := transactions[id];
      if tx.status != Pending then Processed(Err(NotPending), accounts, transactions, t)
      else if tx.txType.Other? then Processed(Err(InvalidType), accounts, transactions, t)
      else
        var applied := ApplyByType(accounts, accountsRejected, tx, t);
        if applied.err == Some(NilAccountId) then
          Processed(Err(NilAccountId), accounts, transactions, t)
        else if applied.err.Some? then
          var failed := tx.Fail(applied.time + 1);
          var saved := if tx.id in transactionsRejected then transactions else transactions[tx.id := failed];
          Processed(Err(applied.err.value), applied.accounts, saved, applied.time + 1)
        else
          var completed := tx.Complete(applied.time + 1);
          if tx.id in transactionsRejected then
            Processed(Err(WriteRejected), applied.accounts, transactions, applied.time + 1)
          else
            Processed(Ok(completed), applied.accounts, transactions[tx.id := completed], applied.time + 1)
  }

  // ----- The handler as the Go code runs it -----

  method ProcessDeposit(accountRepo: Store<AccountData>, clock: Clock, transaction: Transaction)
    returns (err: Option<Error>)
    modifies accountRepo`rows, clock`now
    ensures Applied(err, accountRepo.rows, clock.now)
         == ApplyDeposit(old(accountRepo.rows), accountRepo.rejected, transaction.Data(), old(clock.now))
  {
    if transaction.toAccountId.None? {
      return Some(NilAccountId);
    }
    var loaded := accountRepo.GetByID(transaction.toAccountId.value);
    if loaded.Err? {
      return Some(loaded.error);
    }
    var account := new Account.Load(loaded.value);
    err := account.Credit(transaction.amount, clock);
    if err.Some? {
      return;
    }
    err := accountRepo.Update(account.id, account.Data());
  }

  method ProcessWithdraw(accountRepo: Store<AccountData>, clock: Clock, transaction: Transaction)
    returns (err: Option<Error>)
    modifies accountRepo`rows, clock`now
    ensures Applied(err, accountRepo.rows, clock.now)
         == ApplyWithdraw(old(accountRepo.rows), accountRepo.rejected, transaction.Data(), old(clock.now))
  {
    if transaction.fromAccountId.None? {
      return Some(NilAccountId);
    }
    var loaded := accountRepo.GetByID(transaction.fromAccountId.value);
    if loaded.Err? {
      return Some(loaded.error);
    }
    var account := new Account.Load(loaded.value);
    err := account.Debit(transaction.amount, clock);
    if err.Some? {
      return;
    }
    err := accountRepo.Update(account.id, account.Data());
  }

  method ProcessTransfer(accountRepo: Store<AccountData>, clock: Clock, transaction: Transaction)
    returns (err: Option<Error>)
    modifies accountRepo`rows, clock`now
    ensures Applied(err, accountRepo.rows, clock.now)
         == ApplyTransfer(old(accountRepo.rows), accountRepo.rejected, transaction.Data(), old(clock.now))
  {
    if transaction.fromAccountId.None? {
      return Some(NilAccountId);
    }
    var fromLoaded := accountRepo.GetByID(transaction.fromAccountId.value);
    if fromLoaded.Err? {
      return Some(fromLoaded.error);
    }
    if transaction.toAccountId.None? {
      return Some(NilAccountId);
    }
    var toLoaded := accountRepo.GetByID(transaction.toAccountId.value);
    if toLoaded.Err? {
      return Some(toLoaded.error);
    }
    var fromAccount := new Account.Load(fromLoaded.value);
    var toAccount := new Account.Load(toLoaded.value);
    err := fromAccount.Debit(transaction.amount, clock);
    if err.Some? {
      return;
    }
    err := toAccount.Credit(transaction.amount, clock);
    if err.Some? {
      return;
    }
    err := accountRepo.Update(fromAccount.id, fromAccount.Data());
    if err.Some? {
      return;
    }
    err := accountRepo.Update(toAccount.id, toAccount.Data());
  }

  /** The process handler: its effect on both stores and the clock is the
      one `Process` describes. */
  method Handle(transactionRepo: Store<TransactionData>, accountRepo: Store<AccountData>, clock: Clock, id: Uuid)
    returns (r: Result<TransactionData>)
    modifies transactionRepo`rows, accountRepo`rows, clock`now
    ensures Processed(r, accountRepo.rows, transactionRepo.rows, clock.now)
         == Process(old(accountRepo.rows), accountRepo.rejected,
                    old(transactionRepo.rows), transactionRepo.rejected, old(clock.now), id)
  {
    ghost var accounts0, transactions0, t0 := accountRepo.rows, transactionRepo.rows, clock.now;
    var loaded := transactionRepo.GetByID(id);
    if loaded.Err? {
      return Err(loaded.error);
    }
    var transaction := new Transaction.Load(loaded.value);
    if transaction.status != Pending {
      return Err(NotPending);
    }
    ghost var tx := loaded.value;
    var err: Option<Error>;
    match transaction.txType {
      case Deposit =>
        err := ProcessDeposit(accountRepo, clock, transaction);
      case Withdraw =>
        err := ProcessWithdraw(accountRepo, clock, transaction);
      case Transfer =>
        err := ProcessTransfer(accountRepo, clock, transaction);
      case Other(_) =>
        return Err(InvalidType);
    }
    ghost var applied := ApplyByType(accounts0, accountRepo.rejected, tx, t0);
    assert Applied(err, accountRepo.rows, clock.now) == applied;
    assert transaction.Data() == tx;
    if err == Some(NilAccountId) {
      // The nil dereference aborts the request before any write.
      return Err(NilAccountId);
    }
    if err.Some? {
      transaction.Fail(clock);
      assert transaction.Data() == tx.Fail(applied.time + 1);
      var _ := transactionRepo.Update(transaction.id, transaction.Data());
      return Err(err.value);
    }
    transaction.Complete(clock);
    assert transaction.Data() == tx.Complete(applied.time + 1);
    err := transactionRepo.Update(transaction.id, transaction.Data());
    if err.Some? {
      return Err(err.value);
    }
    r := Ok(transaction.Data());
  }
}
