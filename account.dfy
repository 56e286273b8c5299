/** The account entity: a balance that debits and credits move, gated by status. */
module Accounts {
  import opened Core
  import opened MoneyValue

  datatype AccountStatus = Active | Inactive | Blocked

  /** An account as a value: the row the store keeps. Each operation of
      the entity is given here on values; class `Account` below performs
      the same operation in place. */
  datatype AccountData = AccountData(
    id: Uuid,
    number: string,
    holderName: string,
    balance: Money,
    status: AccountStatus,
    createdAt: Time,
    updatedAt: Time)
  {
    /** Take `amount` off the balance. Only the amounts are compared: the
        currency of `amount` is never checked against the balance's. */
    function Debit(amount: Money, now: Time): (r: Result<AccountData>)
      ensures status != Active ==> r == Err(AccountNotActive)
      ensures status == Active && balance.amount < amount.amount ==> r == Err(InsufficientFunds)
      ensures r.Ok? <==> status == Active && amount.amount <= balance.amount
      ensures r.Ok? ==>
        && r.value.balance == Money(balance.amount - amount.amount, balance.currency)
        && r.value.balance.amount >= 0
        && r.value.updatedAt == now
        && r.value == this.(balance := r.value.balance, updatedAt := now)
    {
      if status != Active then Err(AccountNotActive)
      else if balance.amount < amount.amount then Err(InsufficientFunds)
      else Ok(this.(balance := balance.(amount := balance.amount - amount.amount), updatedAt := now))
    }

    /** Add `amount` to the balance; there is no upper bound. */
    function Credit(amount: Money, now: Time): (r: Result<AccountData>)
      ensures status != Active ==> r == Err(AccountNotActive)
      ensures r.Ok? <==> status == Active
      ensures r.Ok? ==>
        && r.value.balance == Money(balance.amount + amount.amount, balance.currency)
        && r.value.updatedAt == now
        && r.value == this.(balance := r.value.balance, updatedAt := now)
    {
      if status != Active then Err(AccountNotActive)
      else Ok(this.(balance := balance.(amount := balance.amount + amount.amount), updatedAt := now))
    }

    function Block(now: Time): (r: AccountData)
      ensures r.status == Blocked && r.updatedAt == now
      ensures r == this.(status := Blocked, updatedAt := now)
    {
      this.(status := Blocked, updatedAt := now)
    }

    function Activate(now: Time): (r: AccountData)
      ensures r.status == Active && r.updatedAt == now
      ensures r == this.(status := Active, updatedAt := now)
    {
      this.(status := Active, updatedAt := now)
    }
  }

  /** A freshly opened account: Active, holding the initial balance. */
  function NewAccountData(id: Uuid, number: string, holderName: string, initialBalance: Money, now: Time): (a: AccountData)
    ensures a.id == id && a.number == number && a.holderName == holderName
    ensures a.balance == initialBalance && a.status == Active
    ensures a.createdAt == a.updatedAt == now
  {
    AccountData(id, number, holderName, initialBalance, Active, now, now)
  }

  /** A debit that succeeds, then a credit of the same amount, restores the balance. */
  lemma DebitThenCredit(a: AccountData, amount: Money, t1: Time, t2: Time)
    requires a.Debit(amount, t1).Ok?
    ensures a.Debit(amount, t1).value.Credit(amount, t2).Ok?
    ensures a.Debit(amount, t1).value.Credit(amount, t2).value == a.(updatedAt := t2)
  {
  }

  /** Blocking an account makes every later debit and credit fail until it
      is activated again, and it never touches the balance. */
  lemma BlockedRefusesMovements(a: AccountData, amount: Money, t1: Time, t2: Time)
    ensures a.Block(t1).balance == a.balance
    ensures a.Block(t1).Debit(amount, t2) == Err(AccountNotActive)
    ensures a.Block(t1).Credit(amount, t2) == Err(AccountNotActive)
    ensures a.Block(t1).Activate(t2) == a.(updatedAt := t2, status := Active)
  {
  }

  /** A debit keeps a non-negative balance non-negative, whatever the amount;
      a credit does so only for a non-negative amount. */
  lemma MovementsAndNonNegativeBalance(a: AccountData, amount: Money, now: Time)
    requires a.balance.amount >= 0
    ensures a.Debit(amount, now).Ok? ==> a.Debit(amount, now).value.balance.amount >= 0
    ensures amount.amount >= 0 && a.Credit(amount, now).Ok? ==> a.Credit(amount, now).value.balance.amount >= 0
  {
  }

  /** No amount is checked for sign: crediting a negative amount to an empty
      active account drives its balance below zero. */
  lemma NegativeCreditOverdraws(a: AccountData, now: Time)
    requires a.status == Active && a.balance.amount == 0
    ensures a.Credit(Money(-1, a.balance.currency), now).Ok?
    ensures a.Credit(Money(-1, a.balance.currency), now).value.balance.amount == -1
  {
  }

  /** The account as the Go code handles it: a record updated in place. */
  class Account {
    var id: Uuid
    var number: string
    var holderName: string
    var balance: Money
    var status: AccountStatus
    var createdAt: Time
    var updatedAt: Time

    /** The value of this account, as the store would keep it. */
    function Data(): AccountData
      reads this
    {
      AccountData(id, number, holderName, balance, status, createdAt, updatedAt)
    }

    /** Opens an account, reading the clock once. */
    constructor (id: Uuid, number: string, holderName: string, initialBalance: Money, clock: Clock)
      modifies clock`now
      ensures clock.now == old(clock.now) + 1
      ensures Data() == NewAccountData(id, number, holderName, initialBalance, clock.now)
    {
      var now := clock.Tick();
      this.id := id;
      this.number := number;
      this.holderName := holderName;
      this.balance := initialBalance;
      this.status := Active;
      this.createdAt := now;
      this.updatedAt := now;
    }

    /** A fresh object holding a copy of a stored row. */
    constructor Load(d: AccountData)
      ensures Data() == d
    {
      id, number, holderName, balance := d.id, d.number, d.holderName, d.balance;
      status, createdAt, updatedAt := d.status, d.createdAt, d.updatedAt;
    }

    /** The status check comes first, then the funds check; the clock is
        read only when the debit happens. */
    method Debit(amount: Money, clock: Clock) returns (err: Option<Error>)
      modifies this`balance, this`updatedAt, clock`now
      ensures err.Some? <==> old(Data()).Debit(amount, old(clock.now) + 1).Err?
      ensures err.Some? ==>
        && err.value == old(Data()).Debit(amount, old(clock.now) + 1).error
        && Data() == old(Data()) && clock.now == old(clock.now)
      ensures err.None? ==>
        && Data() == old(Data()).Debit(amount, clock.now).value
        && clock.now == old(clock.now) + 1
      ensures err.None? && old(updatedAt) <= old(clock.now) ==> updatedAt > old(updatedAt)
    {
      if status != Active {
        return Some(AccountNotActive);
      }
      if balance.amount < amount.amount {
        return Some(InsufficientFunds);
      }
      balance := balance.(amount := balance.amount - amount.amount);
      updatedAt := clock.Tick();
      err := None;
    }

    method Credit(amount: Money, clock: Clock) returns (err: Option<Error>)
      modifies this`balance, this`updatedAt, clock`now
      ensures err.Some? <==> old(Data()).Credit(amount, old(clock.now) + 1).Err?
      ensures err.Some? ==>
        && err.value == AccountNotActive
        && Data() == old(Data()) && clock.now == old(clock.now)
      ensures err.None? ==>
        && Data() == old(Data()).Credit(amount, clock.now).value
        && clock.now == old(clock.now) + 1
      ensures err.None? && old(updatedAt) <= old(clock.now) ==> updatedAt > old(updatedAt)
    {
      if status != Active {
        return Some(AccountNotActive);
      }
      balance := balance.(amount := balance.amount + amount.amount);
      updatedAt := clock.Tick();
      err := None;
    }

    method Block(clock: Clock)
      modifies this`status, this`updatedAt, clock`now
      ensures clock.now == old(clock.now) + 1
      ensures Data() == old(Data()).Block(clock.now)
    {
      status := Blocked;
      updatedAt := clock.Tick();
    }

    method Activate(clock: Clock)
      modifies this`status, this`updatedAt, clock`now
      ensures clock.now == old(clock.now) + 1
      ensures Data() == old(Data()).Activate(clock.now)
    {
      status := Active;
      updatedAt := clock.Tick();
    }
  }
}
