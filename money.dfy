/** An immutable amount of integer minor units bound to a currency. */
module MoneyValue {
  import opened Core

  /** A currency code; the ledger knows THB and USD, but nothing stops
      another code from reaching it. */
  type Currency = string

  const THB: Currency := "THB"
  const USD: Currency := "USD"

  datatype Money = Money(amount: int, currency: Currency) {

    predicate IsZero() { amount == 0 }

    predicate IsNegative() { amount < 0 }

    predicate IsPositive() { amount > 0 }

    /** The sum of two amounts of one currency. */
    function Add(other: Money): (r: Result<Money>)
      ensures currency != other.currency ==> r == Err(AddCurrencyMismatch)
      ensures currency == other.currency ==>
        r.Ok? && r.value.amount == amount + other.amount && r.value.currency == currency
    {
      if currency != other.currency then Err(AddCurrencyMismatch)
      else Ok(Money(amount + other.amount, currency))
    }

    /** The difference of two amounts of one currency; it may be negative. */
    function Subtract(other: Money): (r: Result<Money>)
      ensures currency != other.currency ==> r == Err(SubtractCurrencyMismatch)
      ensures currency == other.currency ==>
        r.Ok? && r.value.amount == amount - other.amount && r.value.currency == currency
      ensures currency == other.currency && amount < other.amount ==> r.value.IsNegative()
    {
      if currency != other.currency then Err(SubtractCurrencyMismatch)
      else Ok(Money(amount - other.amount, currency))
    }
  }

  function NewMoney(amount: int, currency: Currency): (m: Money)
    ensures m.amount == amount && m.currency == currency
  {
    Money(amount, currency)
  }

  /** Exactly one sign predicate holds, decided by comparing the amount with 0. */
  lemma SignTrichotomy(m: Money)
    ensures m.IsZero() <==> m.amount == 0
    ensures m.IsNegative() <==> m.amount < 0
    ensures m.IsPositive() <==> m.amount > 0
    ensures (m.IsZero() && !m.IsNegative() && !m.IsPositive())
         || (!m.IsZero() && m.IsNegative() && !m.IsPositive())
         || (!m.IsZero() && !m.IsNegative() && m.IsPositive())
  {
  }

  /** Adding and then subtracting a same-currency amount gives back the original. */
  lemma AddThenSubtract(m: Money, o: Money)
    requires m.currency == o.currency
    ensures m.Add(o).Ok? && m.Add(o).value.Subtract(o) == Ok(m)
  {
  }

  /** Subtracting and then adding a same-currency amount gives back the original. */
  lemma SubtractThenAdd(m: Money, o: Money)
    requires m.currency == o.currency
    ensures m.Subtract(o).Ok? && m.Subtract(o).value.Add(o) == Ok(m)
  {
  }

  /** Addition is commutative on same-currency amounts. */
  lemma AddCommutes(m: Money, o: Money)
    requires m.currency == o.currency
    ensures m.Add(o) == o.Add(m)
  {
  }
}
