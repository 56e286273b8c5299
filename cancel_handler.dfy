/** Cancelling a transaction that was never processed. The handler holds
    the transaction store only, so it cannot read or write an account. */
module CancelHandler {
  import opened Core
  import opened Transactions
  import opened Repository

  datatype CancelOutcome = CancelOutcome(
    result: Result<TransactionData>,
    transactions: map<Uuid, TransactionData>,
    time: Time)

  /** Cancelling the transaction stored under `id` at clock reading `t`. */
  function Cancel(transactions: map<Uuid, TransactionData>, rejected: set<Uuid>, t: Time, id: Uuid): (c: CancelOutcome)
    ensures id !in transactions ==> c == CancelOutcome(Err(NotFound), transactions, t)
    ensures id in transactions && transactions[id].status != Pending ==>
      c == CancelOutcome(Err(OnlyPendingCancellable), transactions, t)
    ensures id in transactions && transactions[id].status == Pending && transactions[id].id in rejected ==>
      c == CancelOutcome(Err(WriteRejected), transactions, t + 1)
    ensures c.result.Ok? <==>
      id in transactions && transactions[id].status == Pending && transactions[id].id !in rejected
    ensures c.result.Ok? ==>
      var old_ := transactions[id];
      var new_ := c.result.value;
      && new_.status == Cancelled
      && new_.processedAt == old_.processedAt
      && old_.SamePayload(new_) && new_.reference == old_.reference
      && c.transactions == transactions[old_.id := new_]
  {
    if id !in transactions then CancelOutcome(Err(NotFound), transactions, t)
    else
      var tx := transactions[id];
      if tx.status != Pending then CancelOutcome(Err(OnlyPendingCancellable), transactions, t)
      else
        var cancelled := tx.Cancel(t + 1);
        if tx.id in rejected then CancelOutcome(Err(WriteRejected), transactions, t + 1)
        else CancelOutcome(Ok(cancelled), transactions[tx.id := cancelled], t + 1)
  }

  /** The cancel handler: read, check the guard, cancel in place, write back. */
  method Handle(transactionRepo: Store<TransactionData>, clock: Clock, id: Uuid)
    returns (r: Result<TransactionData>)
    modifies transactionRepo`rows, clock`now
    ensures CancelOutcome(r, transactionRepo.rows, clock.now)
         == Cancel(old(transactionRepo.rows), transactionRepo.rejected, old(clock.now), id)
  {
    var loaded := transactionRepo.GetByID(id);
    if loaded.Err? {
      return Err(loaded.error);
    }
    var transaction := new Transaction.Load(loaded.value);
    if transaction.status != Pending {
      return Err(OnlyPendingCancellable);
    }
    transaction.Cancel(clock);
    var err := transactionRepo.Update(transaction.id, transaction.Data());
    if err.Some? {
      return Err(err.value);
    }
    r := Ok(transaction.Data());
  }

  /** A transaction that came from a factory and was cancelled still has no
      `processedAt`. */
  lemma CancelKeepsProcessedAtUnset(transactions: map<Uuid, TransactionData>, rejected: set<Uuid>, t: Time, id: Uuid)
    requires id in transactions && transactions[id].processedAt == None
    requires Cancel(transactions, rejected, t, id).result.Ok?
    ensures Cancel(transactions, rejected, t, id).result.value.processedAt == None
  {
  }

  /** Cancelling twice: the second attempt is refused and changes nothing. */
  lemma CancelOnce(transactions: map<Uuid, TransactionData>, rejected: set<Uuid>, t: Time, id: Uuid)
    requires id in transactions && transactions[id].id == id
    requires Cancel(transactions, rejected, t, id).result.Ok?
    ensures var c := Cancel(transactions, rejected, t, id);
      Cancel(c.transactions, rejected, c.time, id) == CancelOutcome(Err(OnlyPendingCancellable), c.transactions, c.time)
  {
  }
}
