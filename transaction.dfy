/** The transaction entity: an intended money movement and its status machine. */
module Transactions {
  import opened Core
  import opened MoneyValue

  /** `Other` stands for any type string besides the three the ledger knows. */
  datatype TxType = Deposit | Withdraw | Transfer | Other(name: string)

  datatype TxStatus = Pending | Completed | Failed | Cancelled

  /** A transaction as a value: the row the store keeps. Each operation of
      the entity is given here on values; class `Transaction` below
      performs the same operation in place. */
  datatype TransactionData = TransactionData(
    id: Uuid,
    txType: TxType,
    status: TxStatus,
    amount: Money,
    fromAccountId: Option<Uuid>,
    toAccountId: Option<Uuid>,
    description: string,
    reference: string,
    processedAt: Option<Time>,
    createdAt: Time,
    updatedAt: Time)
  {
    /** Amount, type, description and account ids of `other` are the ones of
        this transaction. */
    predicate SamePayload(other: TransactionData) {
      && other.id == id
      && other.txType == txType
      && other.amount == amount
      && other.fromAccountId == fromAccountId
      && other.toAccountId == toAccountId
      && other.description == description
      && other.createdAt == createdAt
    }

    /** Allowed from any status: the entity does not guard its own machine. */
    function Complete(now: Time): (r: TransactionData)
      ensures r.status == Completed && r.processedAt == Some(now) && r.updatedAt == now
      ensures SamePayload(r) && r.reference == reference
    {
      this.(status := Completed, processedAt := Some(now), updatedAt := now)
    }

    function Fail(now: Time): (r: TransactionData)
      ensures r.status == Failed && r.processedAt == Some(now) && r.updatedAt == now
      ensures SamePayload(r) && r.reference == reference
    {
      this.(status := Failed, processedAt := Some(now), updatedAt := now)
    }

    /** Unlike `Complete` and `Fail`, leaves `processedAt` as it was. */
    function Cancel(now: Time): (r: TransactionData)
      ensures r.status == Cancelled && r.processedAt == processedAt && r.updatedAt == now
      ensures SamePayload(r) && r.reference == reference
    {
      this.(status := Cancelled, updatedAt := now)
    }

    function SetReference(ref: string, now: Time): (r: TransactionData)
      ensures r.reference == ref && r.updatedAt == now
      ensures SamePayload(r) && r.status == status && r.processedAt == processedAt
    {
      this.(reference := ref, updatedAt := now)
    }
  }

  /** A fresh Pending transaction with neither account id set. */
  function NewTransactionData(id: Uuid, txType: TxType, amount: Money, description: string, now: Time): (t: TransactionData)
    ensures t.id == id && t.txType == txType && t.amount == amount && t.description == description
    ensures t.status == Pending && t.processedAt == None && t.reference == ""
    ensures t.fromAccountId == None && t.toAccountId == None
    ensures t.createdAt == t.updatedAt == now
  {
    TransactionData(id, txType, Pending, amount, None, None, description, "", None, now, now)
  }

  /** The deposit factory sets only the destination. */
  function NewDepositData(id: Uuid, toAccountId: Uuid, amount: Money, description: string, now: Time): (t: TransactionData)
    ensures t.txType == Deposit && t.status == Pending && t.processedAt == None
    ensures t.fromAccountId == None && t.toAccountId == Some(toAccountId)
    ensures t == NewTransactionData(id, Deposit, amount, description, now).(toAccountId := Some(toAccountId))
  {
    NewTransactionData(id, Deposit, amount, description, now).(toAccountId := Some(toAccountId))
  }

  /** The withdraw factory sets only the source. */
  function NewWithdrawData(id: Uuid, fromAccountId: Uuid, amount: Money, description: string, now: Time): (t: TransactionData)
    ensures t.txType == Withdraw && t.status == Pending && t.processedAt == None
    ensures t.fromAccountId == Some(fromAccountId) && t.toAccountId == None
    ensures t == NewTransactionData(id, Withdraw, amount, description, now).(fromAccountId := Some(fromAccountId))
  {
    NewTransactionData(id, Withdraw, amount, description, now).(fromAccountId := Some(fromAccountId))
  }

  /** The transfer factory sets both ids; they may be equal. */
  function NewTransferData(id: Uuid, fromAccountId: Uuid, toAccountId: Uuid, amount: Money, description: string, now: Time): (t: TransactionData)
    ensures t.txType == Transfer && t.status == Pending && t.processedAt == None
    ensures t.fromAccountId == Some(fromAccountId) && t.toAccountId == Some(toAccountId)
    ensures t == NewTransactionData(id, Transfer, amount, description, now).(fromAccountId := Some(fromAccountId), toAccountId := Some(toAccountId))
  {
    NewTransactionData(id, Transfer, amount, description, now).(fromAccountId := Some(fromAccountId), toAccountId := Some(toAccountId))
  }

  /** `processedAt` is unset before processing, set by `Complete` and
      `Fail`, and still unset after `Cancel`. */
  lemma ProcessedAtLifecycle(id: Uuid, txType: TxType, amount: Money, description: string, t0: Time, t1: Time)
    ensures NewTransactionData(id, txType, amount, description, t0).processedAt == None
    ensures NewTransactionData(id, txType, amount, description, t0).Complete(t1).processedAt == Some(t1)
    ensures NewTransactionData(id, txType, amount, description, t0).Fail(t1).processedAt == Some(t1)
    ensures NewTransactionData(id, txType, amount, description, t0).Cancel(t1).processedAt == None
  {
  }

  /** Terminal states are not enforced by the entity: a completed
      transaction can still be failed, cancelled or completed again. */
  lemma TerminalStatesNotEnforced(t: TransactionData, t1: Time, t2: Time)
    ensures t.Complete(t1).Fail(t2).status == Failed
    ensures t.Complete(t1).Cancel(t2).status == Cancelled
    ensures t.Cancel(t1).Complete(t2).status == Completed
  {
  }

  /** The transaction as the Go code handles it: a record updated in place. */
  class Transaction {
    var id: Uuid
    var txType: TxType
    var status: TxStatus
    var amount: Money
    var fromAccountId: Option<Uuid>
    var toAccountId: Option<Uuid>
    var description: string
    var reference: string
    var processedAt: Option<Time>
    var createdAt: Time
    var updatedAt: Time

    function Data(): TransactionData
      reads this
    {
      TransactionData(id, txType, status, amount, fromAccountId, toAccountId,
                      description, reference, processedAt, createdAt, updatedAt)
    }

    /** `NewTransaction`: reads the clock once for both stamps. */
    constructor (id: Uuid, txType: TxType, amount: Money, description: string, clock: Clock)
      modifies clock`now
      ensures clock.now == old(clock.now) + 1
      ensures Data() == NewTransactionData(id, txType, amount, description, clock.now)
    {
      var now := clock.Tick();
      this.id, this.txType, this.status, this.amount := id, txType, Pending, amount;
      this.fromAccountId, this.toAccountId := None, None;
      this.description, this.reference, this.processedAt := description, "", None;
      this.createdAt, this.updatedAt := now, now;
    }

    /** A fresh object holding a copy of a stored row. */
    constructor Load(d: TransactionData)
      ensures Data() == d
    {
      id, txType, status, amount := d.id, d.txType, d.status, d.amount;
      fromAccountId, toAccountId := d.fromAccountId, d.toAccountId;
      description, reference, processedAt := d.description, d.reference, d.processedAt;
      createdAt, updatedAt := d.createdAt, d.updatedAt;
    }

    method Complete(clock: Clock)
      modifies this`status, this`processedAt, this`updatedAt, clock`now
      ensures clock.now == old(clock.now) + 1
      ensures Data() == old(Data()).Complete(clock.now)
    {
      var now := clock.Tick();
      status := Completed;
      processedAt := Some(now);
      updatedAt := now;
    }

    method Fail(clock: Clock)
      modifies this`status, this`processedAt, this`updatedAt, clock`now
      ensures clock.now == old(clock.now) + 1
      ensures Data() == old(Data()).Fail(clock.now)
    {
      var now := clock.Tick();
      status := Failed;
      processedAt := Some(now);
      updatedAt := now;
    }

    method Cancel(clock: Clock)
      modifies this`status, this`updatedAt, clock`now
      ensures clock.now == old(clock.now) + 1
      ensures Data() == old(Data()).Cancel(clock.now)
    {
      status := Cancelled;
      updatedAt := clock.Tick();
    }

    method SetReference(ref: string, clock: Clock)
      modifies this`reference, this`updatedAt, clock`now
      ensures clock.now == old(clock.now) + 1
      ensures Data() == old(Data()).SetReference(ref, clock.now)
    {
      reference := ref;
      updatedAt := clock.Tick();
    }
  }

  method NewDepositTransaction(id: Uuid, toAccountId: Uuid, amount: Money, description: string, clock: Clock)
    returns (t: Transaction)
    modifies clock`now
    ensures fresh(t) && clock.now == old(clock.now) + 1
    ensures t.Data() == NewDepositData(id, toAccountId, amount, description, clock.now)
  {
    t := new Transaction(id, Deposit, amount, description, clock);
    t.toAccountId := Some(toAccountId);
  }

  method NewWithdrawTransaction(id: Uuid, fromAccountId: Uuid, amount: Money, description: string, clock: Clock)
    returns (t: Transaction)
    modifies clock`now
    ensures fresh(t) && clock.now == old(clock.now) + 1
    ensures t.Data() == NewWithdrawData(id, fromAccountId, amount, description, clock.now)
  {
    t := new Transaction(id, Withdraw, amount, description, clock);
    t.fromAccountId := Some(fromAccountId);
  }

  method NewTransferTransaction(id: Uuid, fromAccountId: Uuid, toAccountId: Uuid, amount: Money, description: string, clock: Clock)
    returns (t: Transaction)
    modifies clock`now
    ensures fresh(t) && clock.now == old(clock.now) + 1
    ensures t.Data() == NewTransferData(id, fromAccountId, toAccountId, amount, description, clock.now)
  {
    t := new Transaction(id, Transfer, amount, description, clock);
    t.fromAccountId := Some(fromAccountId);
    t.toAccountId := Some(toAccountId);
  }
}
