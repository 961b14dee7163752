/** AccountsService: creating accounts, listing them, manual balance
    adjustments recorded as transactions, the total balance, archiving, and
    the guarded delete. */
module Accounts {
  import opened Common
  import opened Entities

  /** The fields of CreateAccountDto the model keeps. Its `user_id` and
      `current_balance` are overwritten by the service. */
  datatype AccountInput = AccountInput(name: string, accountType: AccountType, currency: string,
                                       initialBalance: real, active: Option<bool>)

  /** The saved row: the current balance starts at the initial balance
      (`initial_balance || 0` is the same number), `is_active` defaults to true. */
  function FromInput(id: nat, u: nat, input: AccountInput): (a: Account)
    ensures a.currentBalance == a.initialBalance == input.initialBalance && a.userId == u
  {
    Account(id, u, input.name, input.accountType, input.currency, input.initialBalance, input.initialBalance,
            input.active.GetOr(true))
  }

  /** create: saves the new account. */
  method Create(accounts: Table<Account>, u: nat, input: AccountInput) returns (a: Account)
    modifies accounts
    ensures a == FromInput(old(accounts.nextId), u, input)
    ensures accounts.rows == old(accounts.rows) + [a] && accounts.nextId == old(accounts.nextId) + 1
  {
    a := FromInput(accounts.nextId, u, input);
    accounts.Insert(a);
  }

  function Listed(u: nat, includeInactive: bool): Account -> bool {
    (a: Account) => a.userId == u && (includeInactive || a.active)
  }

  /** findAll: the user's accounts, only the active ones unless inactive ones are asked for. */
  function FindAll(rows: seq<Account>, u: nat, includeInactive: bool): (r: seq<Account>)
    ensures forall a :: a in r <==> a in rows && a.userId == u && (includeInactive || a.active)
  {
    FilterMembers(rows, Listed(u, includeInactive));
    Filter(rows, Listed(u, includeInactive))
  }

  function AccountIndex(rows: seq<Account>, u: nat, id: nat): Option<nat> {
    FindFirst(rows, (a: Account) => a.id == id && a.userId == u)
  }

  /** The amount a transaction adds to a balance: income adds, expense subtracts. */
  function Signed(t: Transaction): real {
    match t.txType
    case Income => t.amount
    case Expense => -t.amount
    case Transfer => 0.0
  }

  /** The adjustment transaction: income of the difference when the balance
      rises, otherwise an expense of its magnitude; it has no date and no category. */
  function Adjustment(id: nat, u: nat, accountId: nat, difference: real, reason: string): Transaction {
    Transaction(id, u, Some(accountId), None, if difference > 0.0 then Income else Expense, Abs(difference), None,
                "Balance adjustment: " + reason)
  }

  /** The adjustment records exactly the change: old balance plus its signed amount is the new balance. */
  lemma AdjustmentRecordsChange(id: nat, u: nat, accountId: nat, oldBalance: real, newBalance: real, reason: string)
    ensures var t := Adjustment(id, u, accountId, newBalance - oldBalance, reason);
            oldBalance + Signed(t) == newBalance && t.amount >= 0.0
            && (t.txType == Income <==> newBalance > oldBalance)
  {
  }

  /** adjustBalance: NotFound for an account the user does not own;
      otherwise one adjustment transaction is written and the balance is set. */
  method AdjustBalance(accounts: Table<Account>, transactions: Table<Transaction>, u: nat, id: nat,
                       newBalance: real, reason: string) returns (r: Result<Account>)
    modifies accounts, transactions
    ensures match AccountIndex(old(accounts.rows), u, id)
            case None => r == Err(NotFound) && unchanged(accounts) && unchanged(transactions)
            case Some(i) =>
              var before := old(accounts.rows[i]);
              r == Ok(before.(currentBalance := newBalance))
              && accounts.rows == old(accounts.rows)[i := r.value] && accounts.nextId == old(accounts.nextId)
              && transactions.rows == old(transactions.rows)
                                      + [Adjustment(old(transactions.nextId), u, id, newBalance - before.currentBalance, reason)]
              && transactions.nextId == old(transactions.nextId) + 1
  {
    var found := AccountIndex(accounts.rows, u, id);
    if found.None? {
      return Err(NotFound);
    }
    var i := found.value;
    var account := accounts.rows[i];
    var difference := newBalance - account.currentBalance;
    transactions.Insert(Adjustment(transactions.nextId, u, id, difference, reason));
    var adjusted := account.(currentBalance := newBalance);
    accounts.Save(i, adjusted);
    r := Ok(adjusted);
  }

  function BalanceOf(a: Account): real {
    a.currentBalance
  }

  /** getTotalBalance's answer. */
  datatype TotalBalance = TotalBalance(total: real, byAccount: seq<(string, AccountType, real)>)

  /** getTotalBalance: the active accounts' balances, one line per account, and their sum. */
  function GetTotalBalance(rows: seq<Account>, u: nat): (b: TotalBalance)
    ensures var active := FindAll(rows, u, false);
            b.total == SumBy(active, BalanceOf) && |b.byAccount| == |active|
            && forall k :: 0 <= k < |active| ==>
                 b.byAccount[k] == (active[k].name, active[k].accountType, active[k].currentBalance)
  {
    var active := FindAll(rows, u, false);
    TotalBalance(SumBy(active, BalanceOf),
                 seq(|active|, k requires 0 <= k < |active| => (active[k].name, active[k].accountType, active[k].currentBalance)))
  }

  /** Adjusting an active account moves the total by exactly the change of its balance. */
  lemma TotalAfterAdjustment(rows: seq<Account>, i: nat, u: nat, newBalance: real)
    requires i < |rows| && rows[i].userId == u && rows[i].active
    ensures GetTotalBalance(rows[i := rows[i].(currentBalance := newBalance)], u).total
            == GetTotalBalance(rows, u).total + newBalance - rows[i].currentBalance
  {
    SumByFilterUpdate(rows, i, rows[i].(currentBalance := newBalance), Listed(u, false), BalanceOf);
  }

  /** archive: NotFound, or only the active flag is cleared. */
  method Archive(accounts: Table<Account>, u: nat, id: nat) returns (r: Result<Account>)
    modifies accounts
    ensures match AccountIndex(old(accounts.rows), u, id)
            case None => r == Err(NotFound) && unchanged(accounts)
            case Some(i) => r == Ok(old(accounts.rows[i]).(active := false))
                            && accounts.rows == old(accounts.rows)[i := r.value]
                            && accounts.nextId == old(accounts.nextId)
  {
    var found := AccountIndex(accounts.rows, u, id);
    if found.None? {
      return Err(NotFound);
    }
    var i := found.value;
    var archived := accounts.rows[i].(active := false);
    accounts.Save(i, archived);
    r := Ok(archived);
  }

  /** An archived account leaves the default listing and the total but is
      still listed when inactive accounts are asked for. */
  lemma ArchivedLeavesTotal(rows: seq<Account>, i: nat, u: nat)
    requires i < |rows| && rows[i].userId == u
    ensures var after := rows[i := rows[i].(active := false)];
            rows[i].(active := false) !in FindAll(after, u, false)
            && rows[i].(active := false) in FindAll(after, u, true)
            && GetTotalBalance(after, u).total
               == GetTotalBalance(rows, u).total - (if rows[i].active then rows[i].currentBalance else 0.0)
  {
    var after := rows[i := rows[i].(active := false)];
    assert after[i] in after;
    SumByFilterUpdate(rows, i, rows[i].(active := false), Listed(u, false), BalanceOf);
  }

  /** remove: NotFound; BadRequest while any transaction refers to the
      account (archive it instead); otherwise the row is deleted. */
  method Remove(accounts: Table<Account>, transactions: seq<Transaction>, u: nat, id: nat) returns (s: Status)
    modifies accounts
    ensures match AccountIndex(old(accounts.rows), u, id)
            case None => s == Failed(NotFound) && unchanged(accounts)
            case Some(i) =>
              if exists j :: 0 <= j < |transactions| && transactions[j].accountId == Some(id)
              then s == Failed(BadRequest) && unchanged(accounts)
              else s == Done && accounts.rows == old(accounts.rows)[..i] + old(accounts.rows)[i + 1..]
                   && accounts.nextId == old(accounts.nextId)
  {
    var found := AccountIndex(accounts.rows, u, id);
    if found.None? {
      return Failed(NotFound);
    }
    var used := FindFirst(transactions, (t: Transaction) => t.accountId == Some(id));
    if used.Some? {
      return Failed(BadRequest);
    }
    accounts.Remove(found.value);
    s := Done;
  }
}
