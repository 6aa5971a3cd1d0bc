/** Runs of operations on the account table: the table is a map from id to balance, with the exact
    exception that over-long ids make; balances add up. */
module AccountRuns {
  import opened Accounts

  /** The table after the operations, from the empty table. */
  function Run(rnd: Rounding, ops: seq<Op>): Table {
    if ops == [] then [] else Apply(rnd, Run(rnd, ops[..|ops| - 1]), ops[|ops| - 1]).0
  }

  /** What the k-th operation of the run returns. */
  function ResultAt(rnd: Rounding, ops: seq<Op>, k: nat): Outcome
    requires k < |ops|
  {
    Apply(rnd, Run(rnd, ops[..k]), ops[k]).1
  }

  lemma RunExtend(rnd: Rounding, ops: seq<Op>, op: Op)
    ensures Run(rnd, ops + [op]) == Apply(rnd, Run(rnd, ops), op).0
    ensures ResultAt(rnd, ops + [op], |ops|) == Apply(rnd, Run(rnd, ops), op).1
    ensures forall k :: 0 <= k < |ops| ==> ResultAt(rnd, ops + [op], k) == ResultAt(rnd, ops, k)
  {
    assert (ops + [op])[..|ops|] == ops;
    assert forall k :: 0 <= k < |ops| ==> (ops + [op])[..k] == ops[..k];
  }

  // ---------- every table of a run ----------

  predicate WellFormed(t: Table) {
    |t| <= MAX_ACCOUNTS && forall i :: 0 <= i < |t| ==> t[i].active && |t[i].id| < ACCOUNT_ID_LEN
  }

  /** Slots are never given up and never change their id. */
  lemma SlotsAreKept(rnd: Rounding, t: Table, op: Op)
    requires WellFormed(t)
    ensures var u := Apply(rnd, t, op).0;
            WellFormed(u) && |u| >= |t| && forall i :: 0 <= i < |t| ==> u[i].id == t[i].id
  {
  }

  lemma {:induction false} RunWellFormed(rnd: Rounding, ops: seq<Op>)
    ensures WellFormed(Run(rnd, ops))
  {
    if ops != [] {
      RunWellFormed(rnd, ops[..|ops| - 1]);
      SlotsAreKept(rnd, Run(rnd, ops[..|ops| - 1]), ops[|ops| - 1]);
    }
  }

  // ---------- distinct ids ----------

  predicate Distinct(t: Table) {
    forall i, j :: 0 <= i < j < |t| ==> t[i].id != t[j].id
  }

  /** A create that takes a slot for an id that does not fit the field. */
  predicate Slips(t: Table, op: Op) {
    op.Create? && op.initial >= 0.0 && |t| < MAX_ACCOUNTS && |op.id| >= ACCOUNT_ID_LEN
  }

  /** ... and whose shortened form is already an account. */
  predicate Clashes(t: Table, op: Op) {
    Slips(t, op) && exists i :: 0 <= i < |t| && t[i].id == Truncate(op.id)
  }

  lemma LongIdNotFound(t: Table, id: Id)
    requires WellFormed(t) && |id| >= ACCOUNT_ID_LEN
    ensures Find(t, id) == -1
  {
  }

  /** Ids stay pairwise distinct exactly as long as no create clashes. */
  lemma DistinctKeptExactly(rnd: Rounding, t: Table, op: Op)
    requires WellFormed(t) && Distinct(t)
    ensures Distinct(Apply(rnd, t, op).0) <==> !Clashes(t, op)
  {
    var u := Apply(rnd, t, op).0;
    if Slips(t, op) {
      LongIdNotFound(t, op.id);
      assert u == t + [Account(Truncate(op.id), op.initial, true)];
      if Clashes(t, op) {
        var i :| 0 <= i < |t| && t[i].id == Truncate(op.id);
        assert u[i].id == u[|t|].id;
      }
    }
  }

  predicate NoClash(rnd: Rounding, ops: seq<Op>) {
    forall k :: 0 <= k < |ops| ==> !Clashes(Run(rnd, ops[..k]), ops[k])
  }

  lemma PrefixRuns(rnd: Rounding, ops: seq<Op>)
    requires ops != []
    ensures var init := ops[..|ops| - 1];
            forall k :: 0 <= k < |init| ==> init[..k] == ops[..k] && init[k] == ops[k]
  {
  }

  /** Over a whole run: the ids are pairwise distinct at the end exactly when no create clashed. */
  lemma {:induction false} RunDistinctExactly(rnd: Rounding, ops: seq<Op>)
    ensures Distinct(Run(rnd, ops)) <==> NoClash(rnd, ops)
  {
    if ops != [] {
      var init, op := ops[..|ops| - 1], ops[|ops| - 1];
      PrefixRuns(rnd, ops);
      RunDistinctExactly(rnd, init);
      RunWellFormed(rnd, init);
      if Distinct(Run(rnd, init)) {
        DistinctKeptExactly(rnd, Run(rnd, init), op);
        if NoClash(rnd, init) && !Clashes(Run(rnd, init), op) {
          forall k | 0 <= k < |ops|
            ensures !Clashes(Run(rnd, ops[..k]), ops[k])
          {
            assert k == |init| || (init[..k] == ops[..k] && init[k] == ops[k]);
          }
        }
      } else {
        SlotsAreKept(rnd, Run(rnd, init), op);
        var k :| 0 <= k < |init| && Clashes(Run(rnd, init[..k]), init[k]);
        assert Clashes(Run(rnd, ops[..k]), ops[k]);
      }
    }
  }

  /** The failing family is not empty: two creates of the same 20-character id both succeed. */
  lemma SameLongIdTwice(rnd: Rounding, id: Id)
    requires |id| == ACCOUNT_ID_LEN
    ensures var ops := [Create(id, 0.0), Create(id, 0.0)];
            && ResultAt(rnd, ops, 0).status == 0 && ResultAt(rnd, ops, 1).status == 0
            && !Distinct(Run(rnd, ops))
  {
    var first, ops := [Create(id, 0.0)], [Create(id, 0.0), Create(id, 0.0)];
    assert ops[..0] == [] && ops[..1] == first && first[..0] == [];
    assert Run(rnd, first) == [Account(Truncate(id), 0.0, true)];
    RunWellFormed(rnd, first);
    LongIdNotFound(Run(rnd, first), id);
    var t := Run(rnd, ops);
    assert t == [Account(Truncate(id), 0.0, true), Account(Truncate(id), 0.0, true)];
    assert t[0].id == t[1].id;
  }

  // ---------- the table is a map ----------

  function Ids(t: Table): set<Id> {
    set i | 0 <= i < |t| :: t[i].id
  }

  /** The linear search, read as a map lookup. */
  function MapOf(t: Table): map<Id, real> {
    map id | id in Ids(t) && Find(t, id) >= 0 :: t[Find(t, id)].balance
  }

  /** The bank as its users know it: a map from id to balance with room for 100 entries. */
  function ApplyMap(rnd: Rounding, m: map<Id, real>, op: Op): (map<Id, real>, Outcome) {
    if !ValidArgs(op) then (m, Failed(-1))
    else if op.Create? then
      if op.id in m then (m, Failed(-2))
      else if |m| >= MAX_ACCOUNTS then (m, Failed(-3))
      else (m[op.id := op.initial], Failed(0))
    else if op.id !in m then (m, Failed(-2))
    else
      var (balance, outcome) := Settle(rnd, op, m[op.id]);
      (m[op.id := balance], outcome)
  }

  ghost predicate Represents(t: Table, m: map<Id, real>) {
    && (forall i :: 0 <= i < |t| ==> t[i].id in m && m[t[i].id] == t[i].balance)
    && (forall id :: id in m ==> id in Ids(t))
  }

  lemma FindAt(t: Table, i: nat)
    requires WellFormed(t) && Distinct(t) && i < |t|
    ensures Find(t, t[i].id) == i && t[i].id in Ids(t)
  {
    assert Matches(t[i], t[i].id);
  }

  lemma MapOfKeys(t: Table)
    requires WellFormed(t)
    ensures MapOf(t).Keys == Ids(t)
    ensures forall id :: id in Ids(t) <==> Find(t, id) >= 0
  {
    forall id
      ensures id in Ids(t) <==> Find(t, id) >= 0
    {
      if id in Ids(t) {
        var i :| 0 <= i < |t| && t[i].id == id;
        assert Matches(t[i], id);
      }
    }
  }

  lemma MapOfRepresents(t: Table, m: map<Id, real>)
    requires WellFormed(t) && Distinct(t)
    ensures Represents(t, m) <==> m == MapOf(t)
  {
    MapOfKeys(t);
    forall i | 0 <= i < |t|
      ensures Find(t, t[i].id) == i && t[i].id in Ids(t)
    {
      FindAt(t, i);
    }
    if Represents(t, m) {
      assert m.Keys == MapOf(t).Keys;
      forall id | id in m
        ensures m[id] == MapOf(t)[id]
      {
        var i :| 0 <= i < |t| && t[i].id == id;
      }
    }
  }

  lemma {:induction false} MapOfSize(t: Table)
    requires Distinct(t)
    ensures |Ids(t)| == |t|
  {
    if t != [] {
      var init := t[..|t| - 1];
      MapOfSize(init);
      assert Ids(t) == Ids(init) + {t[|t| - 1].id};
      assert t[|t| - 1].id !in Ids(init);
    }
  }

  lemma RepresentsCreate(t: Table, m: map<Id, real>, a: Account)
    requires Represents(t, m) && Distinct(t + [a])
    ensures Represents(t + [a], m[a.id := a.balance])
  {
    var u, n := t + [a], m[a.id := a.balance];
    forall i | 0 <= i < |u|
      ensures u[i].id in n && n[u[i].id] == u[i].balance
    {
      assert i < |t| ==> u[i].id != u[|t|].id;
    }
    forall id | id in n
      ensures id in Ids(u)
    {
      if id == a.id {
        assert u[|t|].id == id;
      } else {
        var i :| 0 <= i < |t| && t[i].id == id;
        assert u[i].id == id;
      }
    }
  }

  lemma MapOfCreate(t: Table, a: Account)
    requires WellFormed(t + [a]) && Distinct(t + [a]) && WellFormed(t) && Distinct(t)
    ensures MapOf(t + [a]) == MapOf(t)[a.id := a.balance]
  {
    MapOfRepresents(t, MapOf(t));
    RepresentsCreate(t, MapOf(t), a);
    MapOfRepresents(t + [a], MapOf(t)[a.id := a.balance]);
  }

  lemma RepresentsUpdate(t: Table, m: map<Id, real>, i: nat, balance: real)
    requires Represents(t, m) && Distinct(t) && i < |t|
    ensures Represents(t[i := t[i].(balance := balance)], m[t[i].id := balance])
  {
    var u, n := t[i := t[i].(balance := balance)], m[t[i].id := balance];
    forall j | 0 <= j < |u|
      ensures u[j].id in n && n[u[j].id] == u[j].balance
    {
      assert j < i ==> t[j].id != t[i].id;
      assert i < j ==> t[i].id != t[j].id;
    }
    forall id | id in n
      ensures id in Ids(u)
    {
      assert id in m;
      var j :| 0 <= j < |t| && t[j].id == id;
      assert u[j].id == id;
    }
  }

  lemma MapOfUpdate(t: Table, i: nat, balance: real)
    requires WellFormed(t) && Distinct(t) && i < |t|
    ensures MapOf(t[i := t[i].(balance := balance)]) == MapOf(t)[t[i].id := balance]
  {
    MapOfRepresents(t, MapOf(t));
    RepresentsUpdate(t, MapOf(t), i, balance);
    MapOfRepresents(t[i := t[i].(balance := balance)], MapOf(t)[t[i].id := balance]);
  }

  lemma SizesAgree(t: Table)
    requires WellFormed(t) && Distinct(t)
    ensures |MapOf(t)| == |t| && forall id :: id in MapOf(t) <==> Find(t, id) >= 0
  {
    MapOfKeys(t);
    MapOfSize(t);
    assert |MapOf(t)| == |MapOf(t).Keys|;
  }

  /** A create that takes a slot. */
  lemma CreateRefinesExactly(rnd: Rounding, t: Table, op: Op)
    requires WellFormed(t) && Distinct(t) && op.Create? && ValidArgs(op)
    requires Find(t, op.id) < 0 && |t| < MAX_ACCOUNTS
    ensures MapOf(Apply(rnd, t, op).0) == MapOf(t)[op.id := op.initial] <==> !Slips(t, op)
  {
    var u := t + [Account(Truncate(op.id), op.initial, true)];
    SlotsAreKept(rnd, t, op);
    if Slips(t, op) {
      MapOfKeys(u);
      LongIdNotFound(u, op.id);
      assert op.id !in MapOf(u) && op.id in MapOf(t)[op.id := op.initial];
    } else {
      DistinctKeptExactly(rnd, t, op);
      MapOfCreate(t, Account(op.id, op.initial, true));
    }
  }

  /** Every operation answers as on the map; the table moves as the map does except exactly when a
      create slips. In particular a create succeeds iff the balance is not negative, the id is new
      and fewer than 100 accounts exist. */
  lemma RefinesMapExactly(rnd: Rounding, t: Table, op: Op)
    requires WellFormed(t) && Distinct(t)
    ensures Apply(rnd, t, op).1 == ApplyMap(rnd, MapOf(t), op).1
    ensures MapOf(Apply(rnd, t, op).0) == ApplyMap(rnd, MapOf(t), op).0 <==> !Slips(t, op)
  {
    var i := Find(t, op.id);
    SizesAgree(t);
    if op.Create? {
      if i < 0 && ValidArgs(op) && |t| < MAX_ACCOUNTS {
        CreateRefinesExactly(rnd, t, op);
      } else if Slips(t, op) {
        LongIdNotFound(t, op.id);
        assert false;
      }
    } else if i >= 0 {
      FindAt(t, i);
      MapOfUpdate(t, i, Settle(rnd, op, t[i].balance).0);
    }
  }

  function RunMap(rnd: Rounding, ops: seq<Op>): map<Id, real> {
    if ops == [] then map[] else ApplyMap(rnd, RunMap(rnd, ops[..|ops| - 1]), ops[|ops| - 1]).0
  }

  predicate NoSlip(rnd: Rounding, ops: seq<Op>) {
    forall k :: 0 <= k < |ops| ==> !Slips(Run(rnd, ops[..k]), ops[k])
  }

  lemma NoSlipPrefix(rnd: Rounding, ops: seq<Op>)
    requires ops != []
    ensures var init := ops[..|ops| - 1];
            NoSlip(rnd, ops) <==> NoSlip(rnd, init) && !Slips(Run(rnd, init), ops[|ops| - 1])
  {
    var init := ops[..|ops| - 1];
    PrefixRuns(rnd, ops);
    if NoSlip(rnd, init) && !Slips(Run(rnd, init), ops[|ops| - 1]) {
      forall k | 0 <= k < |ops|
        ensures !Slips(Run(rnd, ops[..k]), ops[k])
      {
        assert k == |init| || (init[..k] == ops[..k] && init[k] == ops[k]);
      }
    } else if !NoSlip(rnd, init) {
      var k :| 0 <= k < |init| && Slips(Run(rnd, init[..k]), init[k]);
      assert Slips(Run(rnd, ops[..k]), ops[k]);
    }
  }

  lemma {:induction false} NoSlipRefines(rnd: Rounding, ops: seq<Op>)
    requires NoSlip(rnd, ops)
    ensures Distinct(Run(rnd, ops)) && MapOf(Run(rnd, ops)) == RunMap(rnd, ops)
  {
    if ops != [] {
      var init, op := ops[..|ops| - 1], ops[|ops| - 1];
      NoSlipPrefix(rnd, ops);
      NoSlipRefines(rnd, init);
      RunWellFormed(rnd, init);
      DistinctKeptExactly(rnd, Run(rnd, init), op);
      RefinesMapExactly(rnd, Run(rnd, init), op);
    }
  }

  lemma NoSlipAnswers(rnd: Rounding, ops: seq<Op>, k: nat)
    requires NoSlip(rnd, ops) && k < |ops|
    ensures ResultAt(rnd, ops, k) == ApplyMap(rnd, RunMap(rnd, ops[..k]), ops[k]).1
  {
    var before := ops[..k];
    assert forall j :: 0 <= j < k ==> before[..j] == ops[..j];
    NoSlipRefines(rnd, before);
    RunWellFormed(rnd, before);
    RefinesMapExactly(rnd, Run(rnd, before), ops[k]);
  }

  ghost predicate HasLongKey(m: map<Id, real>) {
    exists id :: id in m && |id| >= ACCOUNT_ID_LEN
  }

  /** After a slip the map has a key that no table can have. */
  lemma {:induction false} SlipShows(rnd: Rounding, ops: seq<Op>)
    requires !NoSlip(rnd, ops)
    ensures HasLongKey(RunMap(rnd, ops))
  {
    var init, op := ops[..|ops| - 1], ops[|ops| - 1];
    NoSlipPrefix(rnd, ops);
    if NoSlip(rnd, init) {
      NoSlipRefines(rnd, init);
      RunWellFormed(rnd, init);
      RefinesMapExactly(rnd, Run(rnd, init), op);
      LongIdNotFound(Run(rnd, init), op.id);
      assert op.id in RunMap(rnd, ops);
    } else {
      SlipShows(rnd, init);
      var id :| id in RunMap(rnd, init) && |id| >= ACCOUNT_ID_LEN;
      assert id in RunMap(rnd, ops);
    }
  }

  /** A run of the table is a run of the map exactly when no create slips on the way, and then all
      answers agree too. Creates with ids of up to 19 characters never slip. */
  lemma {:induction false} RunRefinesMapExactly(rnd: Rounding, ops: seq<Op>)
    ensures MapOf(Run(rnd, ops)) == RunMap(rnd, ops) <==> NoSlip(rnd, ops)
    ensures NoSlip(rnd, ops) ==>
              forall k :: 0 <= k < |ops| ==>
                ResultAt(rnd, ops, k) == ApplyMap(rnd, RunMap(rnd, ops[..k]), ops[k]).1
  {
    if NoSlip(rnd, ops) {
      NoSlipRefines(rnd, ops);
      forall k | 0 <= k < |ops|
        ensures ResultAt(rnd, ops, k) == ApplyMap(rnd, RunMap(rnd, ops[..k]), ops[k]).1
      {
        NoSlipAnswers(rnd, ops, k);
      }
    } else {
      SlipShows(rnd, ops);
      RunWellFormed(rnd, ops);
      MapOfKeys(Run(rnd, ops));
      var id :| id in RunMap(rnd, ops) && |id| >= ACCOUNT_ID_LEN;
      assert id !in MapOf(Run(rnd, ops));
    }
  }

  // ---------- money ----------

  function Total(t: Table): real {
    if t == [] then 0.0 else Total(t[..|t| - 1]) + t[|t| - 1].balance
  }

  /** What a finished operation has added to the bank. */
  function Net(op: Op, outcome: Outcome): real {
    if outcome.status != 0 then 0.0
    else
      match op
      case Create(_, initial) => initial
      case Deposit(_, amount) => amount
      case Withdraw(_, amount) => -amount
      case Query(_) => 0.0
  }

  ghost predicate Exact(rnd: Rounding) {
    forall x: real :: rnd(x) == x
  }

  lemma {:induction false} TotalUpdate(t: Table, i: nat, balance: real)
    requires i < |t|
    ensures Total(t[i := t[i].(balance := balance)]) == Total(t) - t[i].balance + balance
  {
    var u := t[i := t[i].(balance := balance)];
    if i == |t| - 1 {
      assert u[..|u| - 1] == t[..|t| - 1];
    } else {
      assert u[..|u| - 1] == t[..|t| - 1][i := t[i].(balance := balance)];
      TotalUpdate(t[..|t| - 1], i, balance);
    }
  }

  lemma TotalApply(rnd: Rounding, t: Table, op: Op)
    requires Exact(rnd)
    ensures Total(Apply(rnd, t, op).0) == Total(t) + Net(op, Apply(rnd, t, op).1)
  {
    var u, i := Apply(rnd, t, op).0, Find(t, op.id);
    if |u| > |t| {
      assert u[..|u| - 1] == t;
    } else if ValidArgs(op) && !op.Create? && i >= 0 {
      TotalUpdate(t, i, Settle(rnd, op, t[i].balance).0);
    }
  }

  /** The net amount of all results of a run. */
  function NetOfRun(rnd: Rounding, ops: seq<Op>): real {
    if ops == [] then 0.0
    else NetOfRun(rnd, ops[..|ops| - 1]) + Net(ops[|ops| - 1], ResultAt(rnd, ops, |ops| - 1))
  }

  lemma {:induction false} RunTotal(rnd: Rounding, ops: seq<Op>)
    requires Exact(rnd)
    ensures Total(Run(rnd, ops)) == NetOfRun(rnd, ops)
  {
    if ops != [] {
      RunTotal(rnd, ops[..|ops| - 1]);
      TotalApply(rnd, Run(rnd, ops[..|ops| - 1]), ops[|ops| - 1]);
    }
  }
}
