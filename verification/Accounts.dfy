/** The account table of common/src/account.c, one operation at a time. */
module Accounts {
  import opened Options
  import opened Crypto

  const MAX_ACCOUNTS := 100
  const ACCOUNT_ID_LEN := 20

  /** The characters of a C string, up to its NUL. */
  type Id = seq<byte>

  /** A double addition or subtraction yields the rounded exact result; the rounding is a parameter. */
  type Rounding = real -> real

  datatype Account = Account(id: Id, balance: real, active: bool)

  /** The slots below account_count. */
  type Table = seq<Account>

  datatype Op =
    | Create(id: Id, initial: real)
    | Deposit(id: Id, amount: real)
    | Withdraw(id: Id, amount: real)
    | Query(id: Id)

  /** The return code, and the value left in *new_balance or *balance (None: left unset). */
  datatype Outcome = Outcome(status: int, balance: Option<real>)

  function Failed(status: int): Outcome { Outcome(status, None) }

  /** strncpy into the 20-byte field, the last byte set to NUL. */
  function Truncate(id: Id): (r: Id)
    ensures r <= id && |r| == if |id| < 20 then |id| else 19
  {
    if |id| < ACCOUNT_ID_LEN then id else id[..ACCOUNT_ID_LEN - 1]
  }

  predicate Matches(a: Account, id: Id) {
    a.active && a.id == id
  }

  /** The first slot that matches, or -1. */
  function Find(t: Table, id: Id): (r: int)
    ensures -1 <= r < |t|
    ensures r >= 0 ==> t[r].active && t[r].id == id
    ensures forall j :: 0 <= j < (if r < 0 then |t| else r) ==> !(t[j].active && t[j].id == id)
  {
    if t == [] then -1
    else
      var r := Find(t[..|t| - 1], id);
      if r >= 0 then r else if Matches(t[|t| - 1], id) then |t| - 1 else -1
  }

  predicate ValidArgs(op: Op) {
    match op
    case Create(_, initial) => initial >= 0.0
    case Deposit(_, amount) => amount > 0.0
    case Withdraw(_, amount) => amount > 0.0
    case Query(_) => true
  }

  /** What an operation does to the balance of its account. */
  function Settle(rnd: Rounding, op: Op, balance: real): (real, Outcome)
    requires !op.Create?
  {
    match op
    case Deposit(_, amount) => (rnd(balance + amount), Outcome(0, Some(rnd(balance + amount))))
    case Withdraw(_, amount) =>
      if balance < amount then (balance, Failed(-3))
      else (rnd(balance - amount), Outcome(0, Some(rnd(balance - amount))))
    case Query(_) => (balance, Outcome(0, Some(balance)))
  }

  /** One whole operation on the table. */
  function Apply(rnd: Rounding, t: Table, op: Op): (Table, Outcome) {
    var i := Find(t, op.id);
    if !ValidArgs(op) then (t, Failed(-1))
    else if op.Create? then
      if i >= 0 then (t, Failed(-2))
      else if |t| >= MAX_ACCOUNTS then (t, Failed(-3))
      else (t + [Account(Truncate(op.id), op.initial, true)], Failed(0))
    else if i < 0 then (t, Failed(-2))
    else
      var (balance, outcome) := Settle(rnd, op, t[i].balance);
      (t[i := t[i].(balance := balance)], outcome)
  }

  class AccountDB {
    const accounts: array<Account>
    var accountCount: nat

    ghost predicate Valid()
      reads this, accounts
    {
      accounts.Length == MAX_ACCOUNTS && accountCount <= MAX_ACCOUNTS
      && forall i :: 0 <= i < MAX_ACCOUNTS ==> (accounts[i].active <==> i < accountCount)
    }

    ghost function View(): Table
      requires Valid()
      reads this, accounts
    {
      accounts[..accountCount]
    }

    /** account_init */
    constructor ()
      ensures Valid() && fresh(accounts) && View() == []
    {
      accounts := new Account[MAX_ACCOUNTS](i => Account([], 0.0, false));
      accountCount := 0;
      new;
      for i := 0 to MAX_ACCOUNTS
        invariant accountCount == 0 && fresh(accounts) && accounts.Length == MAX_ACCOUNTS
        invariant forall k :: 0 <= k < i ==> !accounts[k].active
      {
        accounts[i] := accounts[i].(active := false);
      }
    }

    /** account_find, returning an index for the C pointer and -1 for NULL. */
    method Lookup(id: Id) returns (r: int)
      requires Valid()
      ensures r == Find(View(), id)
    {
      for i := 0 to accountCount
        invariant forall j :: 0 <= j < i ==> !Matches(accounts[j], id)
      {
        if accounts[i].active && accounts[i].id == id {
          return i;
        }
      }
      return -1;
    }

    /** account_create */
    method CreateAccount(id: Id, initialBalance: real, ghost rnd: Rounding) returns (status: int)
      requires Valid()
      modifies this, accounts
      ensures Valid()
      ensures (View(), Failed(status)) == Apply(rnd, old(View()), Create(id, initialBalance))
    {
      if initialBalance < 0.0 {
        return -1;
      }
      var found := Lookup(id);
      if found >= 0 {
        return -2;
      }
      if accountCount >= MAX_ACCOUNTS {
        return -3;
      }
      accounts[accountCount] := accounts[accountCount].(id := Truncate(id));
      accounts[accountCount] := accounts[accountCount].(balance := initialBalance);
      accounts[accountCount] := accounts[accountCount].(active := true);
      accountCount := accountCount + 1;
      assert View() == old(View()) + [Account(Truncate(id), initialBalance, true)];
      status := 0;
    }

    /** account_deposit */
    method MakeDeposit(rnd: Rounding, id: Id, amount: real) returns (status: int, newBalance: Option<real>)
      requires Valid()
      modifies accounts
      ensures Valid()
      ensures (View(), Outcome(status, newBalance)) == Apply(rnd, old(View()), Deposit(id, amount))
    {
      if amount <= 0.0 {
        return -1, None;
      }
      var acc := Lookup(id);
      if acc < 0 {
        return -2, None;
      }
      accounts[acc] := accounts[acc].(balance := rnd(accounts[acc].balance + amount));
      return 0, Some(accounts[acc].balance);
    }

    /** account_withdraw */
    method MakeWithdrawal(rnd: Rounding, id: Id, amount: real) returns (status: int, newBalance: Option<real>)
      requires Valid()
      modifies accounts
      ensures Valid()
      ensures (View(), Outcome(status, newBalance)) == Apply(rnd, old(View()), Withdraw(id, amount))
    {
      if amount <= 0.0 {
        return -1, None;
      }
      var acc := Lookup(id);
      if acc < 0 {
        return -2, None;
      }
      if accounts[acc].balance < amount {
        assert View()[acc := View()[acc]] == View();
        return -3, None;
      }
      accounts[acc] := accounts[acc].(balance := rnd(accounts[acc].balance - amount));
      return 0, Some(accounts[acc].balance);
    }

    /** account_get_balance */
    method GetBalance(id: Id, ghost rnd: Rounding) returns (status: int, balance: Option<real>)
      requires Valid()
      ensures (View(), Outcome(status, balance)) == Apply(rnd, View(), Query(id))
    {
      var acc := Lookup(id);
      if acc < 0 {
        return -2, None;
      }
      assert View()[acc := View()[acc]] == View();
      return 0, Some(accounts[acc].balance);
    }
  }
}
