/** Creating a transaction: the ids each type needs are checked, the
    type's factory builds the transaction, and the store inserts it. */
module CreateHandler {
  import opened Core
  import opened MoneyValue
  import opened Transactions
  import opened Repository

  datatype CreateTransactionCommand = CreateTransactionCommand(
    txType: TxType,
    amount: Money,
    fromAccountId: Option<Uuid>,
    toAccountId: Option<Uuid>,
    description: string)

  /** The check the handler makes before building anything. */
  function Validate(cmd: CreateTransactionCommand): (e: Option<Error>)
    ensures cmd.txType == Deposit ==> (e.Some? <==> cmd.toAccountId.None?)
    ensures cmd.txType == Withdraw ==> (e.Some? <==> cmd.fromAccountId.None?)
    ensures cmd.txType == Transfer ==> (e.Some? <==> cmd.fromAccountId.None? || cmd.toAccountId.None?)
    ensures cmd.txType.Other? ==> e == Some(InvalidType)
    ensures e.Some? ==> e.value in {ToRequiredForDeposit, FromRequiredForWithdrawal, BothRequiredForTransfer, InvalidType}
    ensures cmd.txType == Deposit && e.Some? ==> e.value == ToRequiredForDeposit
    ensures cmd.txType == Withdraw && e.Some? ==> e.value == FromRequiredForWithdrawal
    ensures cmd.txType == Transfer && e.Some? ==> e.value == BothRequiredForTransfer
  {
    match cmd.txType
    case Deposit => if cmd.toAccountId.None? then Some(ToRequiredForDeposit) else None
    case Withdraw => if cmd.fromAccountId.None? then Some(FromRequiredForWithdrawal) else None
    case Transfer =>
      if cmd.fromAccountId.None? || cmd.toAccountId.None? then Some(BothRequiredForTransfer) else None
    case Other(_) => Some(InvalidType)
  }

  /** The transaction the factory of the command's type builds. An id the
      type does not use is dropped. */
  function Build(cmd: CreateTransactionCommand, id: Uuid, now: Time): (t: TransactionData)
    requires Validate(cmd).None?
    ensures t.id == id && t.txType == cmd.txType && t.status == Pending
    ensures t.amount == cmd.amount && t.description == cmd.description
    ensures t.processedAt == None && t.createdAt == t.updatedAt == now
    ensures t.fromAccountId == (if cmd.txType == Deposit then None else cmd.fromAccountId)
    ensures t.toAccountId == (if cmd.txType == Withdraw then None else cmd.toAccountId)
  {
    match cmd.txType
    case Deposit => NewDepositData(id, cmd.toAccountId.value, cmd.amount, cmd.description, now)
    case Withdraw => NewWithdrawData(id, cmd.fromAccountId.value, cmd.amount, cmd.description, now)
    case Transfer => NewTransferData(id, cmd.fromAccountId.value, cmd.toAccountId.value, cmd.amount, cmd.description, now)
  }

  datatype CreateOutcome = CreateOutcome(
    result: Result<TransactionData>,
    transactions: map<Uuid, TransactionData>,
    time: Time)

  /** Creating from `cmd` with the fresh id `id` at clock reading `t`. */
  function Create(transactions: map<Uuid, TransactionData>, rejected: set<Uuid>, t: Time,
                  cmd: CreateTransactionCommand, id: Uuid): (c: CreateOutcome)
    ensures Validate(cmd).Some? ==> c == CreateOutcome(Err(Validate(cmd).value), transactions, t)
    ensures Validate(cmd).None? && (id in rejected || id in transactions) ==>
      c == CreateOutcome(Err(WriteRejected), transactions, t + 1)
    ensures c.result.Ok? <==> Validate(cmd).None? && id !in rejected && id !in transactions
    ensures c.result.Ok? ==>
      && id !in transactions
      && c.result.value == Build(cmd, id, t + 1)
      && c.transactions == transactions[id := c.result.value]
      && |c.transactions| == |transactions| + 1
  {
    match Validate(cmd)
    case Some(e) => CreateOutcome(Err(e), transactions, t)
    case None =>
      var tx := Build(cmd, id, t + 1);
      if id in rejected || id in transactions then CreateOutcome(Err(WriteRejected), transactions, t + 1)
      else CreateOutcome(Ok(tx), transactions[id := tx], t + 1)
  }

  /** The create handler: the type switch with its id checks, the factory
      call, then the insert. `id` is the fresh UUID the factory draws. */
  method Handle(transactionRepo: Store<TransactionData>, clock: Clock, cmd: CreateTransactionCommand, id: Uuid)
    returns (r: Result<TransactionData>)
    modifies transactionRepo`rows, clock`now
    ensures CreateOutcome(r, transactionRepo.rows, clock.now)
         == Create(old(transactionRepo.rows), transactionRepo.rejected, old(clock.now), cmd, id)
  {
    var transaction: Transaction;
    match cmd.txType {
      case Deposit =>
        if cmd.toAccountId.None? {
          return Err(ToRequiredForDeposit);
        }
        transaction := NewDepositTransaction(id, cmd.toAccountId.value, cmd.amount, cmd.description, clock);
      case Withdraw =>
        if cmd.fromAccountId.None? {
          return Err(FromRequiredForWithdrawal);
        }
        transaction := NewWithdrawTransaction(id, cmd.fromAccountId.value, cmd.amount, cmd.description, clock);
      case Transfer =>
        if cmd.fromAccountId.None? || cmd.toAccountId.None? {
          return Err(BothRequiredForTransfer);
        }
        transaction := NewTransferTransaction(id, cmd.fromAccountId.value, cmd.toAccountId.value,
                                              cmd.amount, cmd.description, clock);
      case Other(_) =>
        return Err(InvalidType);
    }
    var err := transactionRepo.Create(transaction.id, transaction.Data());
    if err.Some? {
      return Err(err.value);
    }
    r := Ok(transaction.Data());
  }
}
