/** Facts about the account store as a whole: rows keyed by their own id,
    and the sum of all balances. */
module Balances {
  import opened Core
  import opened Accounts

  /** Every stored account sits under its own id, as a primary key makes sure. */
  ghost predicate AccountsKeyed(accounts: map<Uuid, AccountData>) {
    forall k :: k in accounts ==> accounts[k].id == k
  }

  /** The sum of the balance amounts of all stored accounts. */
  ghost function TotalBalance(accounts: map<Uuid, AccountData>): int
    decreases |accounts|
  {
    if accounts == map[] then 0
    else
      var k :| k in accounts;
      assert |accounts - {k}| < |accounts| by { RemoveShrinks(accounts, k); }
      accounts[k].balance.amount + TotalBalance(accounts - {k})
  }

  lemma RemoveShrinks(accounts: map<Uuid, AccountData>, k: Uuid)
    requires k in accounts
    ensures |accounts - {k}| == |accounts| - 1
  {
    assert (accounts - {k}).Keys == accounts.Keys - {k};
  }

  /** Any one account can be taken out of the sum first. */
  lemma {:induction false} TotalWithout(accounts: map<Uuid, AccountData>, k: Uuid)
    requires k in accounts
    ensures TotalBalance(accounts) == accounts[k].balance.amount + TotalBalance(accounts - {k})
    decreases |accounts|
  {
    var j :| j in accounts && TotalBalance(accounts) == accounts[j].balance.amount + TotalBalance(accounts - {j});
    if j != k {
      RemoveShrinks(accounts, j);
      RemoveShrinks(accounts, k);
      TotalWithout(accounts - {j}, k);
      TotalWithout(accounts - {k}, j);
      assert accounts - {j} - {k} == accounts - {k} - {j};
    }
  }

  /** Overwriting one stored account changes the sum by the change of its balance. */
  lemma TotalAfterUpdate(accounts: map<Uuid, AccountData>, k: Uuid, a: AccountData)
    requires k in accounts
    ensures TotalBalance(accounts[k := a]) == TotalBalance(accounts) - accounts[k].balance.amount + a.balance.amount
  {
    TotalWithout(accounts, k);
    TotalWithout(accounts[k := a], k);
    assert accounts[k := a] - {k} == accounts - {k};
  }
}
