/** Shared vocabulary of the ledger: identifiers, time, errors and the clock. */
module Core {

  /** A UUID. The model only ever compares identifiers for equality. */
  type Uuid = nat

  /** A clock reading. */
  type Time = int

  datatype Option<+T> = None | Some(value: T)

  datatype Result<+T> = Ok(value: T) | Err(error: Error)

  /** Every error the core reports. `WriteRejected` stands for any failure
      of the storage adapter on a write; `NilAccountId` stands for the
      nil-pointer dereference of a missing account id, which aborts the
      request before anything is written. */
  datatype Error =
    | NotFound
    | AddCurrencyMismatch
    | SubtractCurrencyMismatch
    | AccountNotActive
    | InsufficientFunds
    | NotPending
    | InvalidType
    | OnlyPendingCancellable
    | ToRequiredForDeposit
    | FromRequiredForWithdrawal
    | BothRequiredForTransfer
    | WriteRejected
    | NilAccountId

  /** The text of each error as the handlers report it. The texts of
      `WriteRejected` and `NilAccountId` are the model's own: the first
      stands for whatever the storage adapter reports, the second for a
      crash that reports no text. */
  function Message(e: Error): string
  {
    match e
    case NotFound => "record not found"
    case AddCurrencyMismatch => "cannot add money with different currencies"
    case SubtractCurrencyMismatch => "cannot subtract money with different currencies"
    case AccountNotActive => "account is not active"
    case InsufficientFunds => "insufficient funds"
    case NotPending => "transaction is not in pending status"
    case InvalidType => "invalid transaction type"
    case OnlyPendingCancellable => "only pending transactions can be cancelled"
    case ToRequiredForDeposit => "to_account_id is required for deposit"
    case FromRequiredForWithdrawal => "from_account_id is required for withdrawal"
    case BothRequiredForTransfer => "both from_account_id and to_account_id are required for transfer"
    case WriteRejected => "storage write failed"
    case NilAccountId => "nil account id"
  }

  /** The errors the Go code raises itself are reported with its own texts. */
  lemma SourceMessages()
    ensures Message(NotFound) == "record not found"
    ensures Message(AddCurrencyMismatch) == "cannot add money with different currencies"
    ensures Message(SubtractCurrencyMismatch) == "cannot subtract money with different currencies"
    ensures Message(AccountNotActive) == "account is not active"
    ensures Message(InsufficientFunds) == "insufficient funds"
    ensures Message(NotPending) == "transaction is not in pending status"
    ensures Message(InvalidType) == "invalid transaction type"
    ensures Message(OnlyPendingCancellable) == "only pending transactions can be cancelled"
    ensures Message(ToRequiredForDeposit) == "to_account_id is required for deposit"
    ensures Message(FromRequiredForWithdrawal) == "from_account_id is required for withdrawal"
    ensures Message(BothRequiredForTransfer) == "both from_account_id and to_account_id are required for transfer"
  {
  }

  /** An injected, strictly increasing clock: each reading is later than
      every earlier one. */
  class Clock {
    var now: Time

    constructor (start: Time)
      ensures now == start
    {
      now := start;
    }

    method Tick() returns (t: Time)
      modifies this`now
      ensures t == now == old(now) + 1
    {
      now := now + 1;
      t := now;
    }
  }
}
