/** Updating an account's holder name. */
module UpdateAccountHandler {
  import opened Core
  import opened Accounts
  import opened Repository

  datatype UpdateAccountCommand = UpdateAccountCommand(id: Uuid, holderName: string)

  datatype UpdateOutcome = UpdateOutcome(result: Result<AccountData>, accounts: map<Uuid, AccountData>)

  /** A non-empty holder name replaces the stored one; an empty one keeps
      it. Nothing else about the account changes, whatever its status, and
      the row is written back in either case. */
  function UpdateAccount(accounts: map<Uuid, AccountData>, rejected: set<Uuid>, cmd: UpdateAccountCommand): (u: UpdateOutcome)
    ensures cmd.id !in accounts ==> u == UpdateOutcome(Err(NotFound), accounts)
    ensures cmd.id in accounts && accounts[cmd.id].id in rejected ==> u == UpdateOutcome(Err(WriteRejected), accounts)
    ensures u.result.Ok? <==> cmd.id in accounts && accounts[cmd.id].id !in rejected
    ensures u.result.Ok? ==>
      var was := accounts[cmd.id];
      var now := u.result.value;
      && now.holderName == (if cmd.holderName != "" then cmd.holderName else was.holderName)
      && now == was.(holderName := now.holderName)
      && u.accounts == accounts[was.id := now]
  {
    if cmd.id !in accounts then UpdateOutcome(Err(NotFound), accounts)
    else
      var account := accounts[cmd.id];
      var renamed := if cmd.holderName != "" then account.(holderName := cmd.holderName) else account;
      if account.id in rejected then UpdateOutcome(Err(WriteRejected), accounts)
      else UpdateOutcome(Ok(renamed), accounts[account.id := renamed])
  }

  /** The update handler: read, assign the holder name in place when given,
      write back. */
  method Handle(accountRepo: Store<AccountData>, cmd: UpdateAccountCommand) returns (r: Result<AccountData>)
    modifies accountRepo`rows
    ensures UpdateOutcome(r, accountRepo.rows) == UpdateAccount(old(accountRepo.rows), accountRepo.rejected, cmd)
  {
    var loaded := accountRepo.GetByID(cmd.id);
    if loaded.Err? {
      return Err(loaded.error);
    }
    var account := new Account.Load(loaded.value);
    if cmd.holderName != "" {
      account.holderName := cmd.holderName;
    }
    var err := accountRepo.Update(account.id, account.Data());
    if err.Some? {
      return Err(err.value);
    }
    r := Ok(account.Data());
  }

  /** With an empty name the stored account is left exactly as it was, yet
      the write still happens, so a refused write is still reported. */
  lemma EmptyNameStillWrites(accounts: map<Uuid, AccountData>, rejected: set<Uuid>, id: Uuid)
    requires id in accounts && accounts[id].id == id
    ensures var u := UpdateAccount(accounts, rejected, UpdateAccountCommand(id, ""));
      && u.accounts == accounts
      && (u.result.Err? <==> id in rejected)
      && (u.result.Ok? ==> u.result.value == accounts[id])
  {
  }
}
