/** What the bank answers, in plain terms: on the map from id to balance, and from the operations and
    answers so far alone, for runs and for any number of workers. */
module Answers {
  import opened Options
  import opened Accounts
  import opened AccountRuns
  import I = Interleavings

  // ---------- on the map ----------

  /** When a create succeeds, and why it fails. */
  lemma CreateAnswer(rnd: Rounding, m: map<Id, real>, id: Id, initial: real)
    ensures var (after, out) := ApplyMap(rnd, m, Create(id, initial));
            && (out.status == 0 <==> initial >= 0.0 && id !in m && |m| < 100)
            && (out.status == -1 <==> initial < 0.0)
            && (out.status == -2 <==> initial >= 0.0 && id in m)
            && (out.status == -3 <==> initial >= 0.0 && id !in m && |m| >= 100)
            && -3 <= out.status <= 0 && out.balance == None
            && after == if out.status == 0 then m[id := initial] else m
  {
  }

  lemma DepositAnswer(rnd: Rounding, m: map<Id, real>, id: Id, amount: real)
    ensures var (after, out) := ApplyMap(rnd, m, Deposit(id, amount));
            && (out.status == 0 <==> amount > 0.0 && id in m)
            && (out.status == -1 <==> amount <= 0.0)
            && (out.status == -2 <==> amount > 0.0 && id !in m)
            && -2 <= out.status <= 0
            && out.balance == (if out.status == 0 then Some(rnd(m[id] + amount)) else None)
            && after == if out.status == 0 then m[id := rnd(m[id] + amount)] else m
  {
  }

  lemma WithdrawAnswer(rnd: Rounding, m: map<Id, real>, id: Id, amount: real)
    ensures var (after, out) := ApplyMap(rnd, m, Withdraw(id, amount));
            && (out.status == 0 <==> amount > 0.0 && id in m && m[id] >= amount)
            && (out.status == -1 <==> amount <= 0.0)
            && (out.status == -2 <==> amount > 0.0 && id !in m)
            && (out.status == -3 <==> amount > 0.0 && id in m && m[id] < amount)
            && -3 <= out.status <= 0
            && out.balance == (if out.status == 0 then Some(rnd(m[id] - amount)) else None)
            && after == if out.status == 0 then m[id := rnd(m[id] - amount)] else m
  {
    if id in m {
      assert m[id := m[id]] == m;
    }
  }

  lemma QueryAnswer(rnd: Rounding, m: map<Id, real>, id: Id)
    ensures var (after, out) := ApplyMap(rnd, m, Query(id));
            && after == m
            && out == if id in m then Outcome(0, Some(m[id])) else Outcome(-2, None)
  {
    if id in m {
      assert m[id := m[id]] == m;
    }
  }

  // ---------- from the answers alone ----------

  /** The first 19 characters of an id, which is all that is kept of it. */
  function Kept(id: Id): Id {
    if |id| < 20 then id else id[..19]
  }

  /** What is known about the balances after one more answer. */
  function Learn(known: map<Id, real>, op: Op, out: Outcome): map<Id, real> {
    if op.Create? then if out.status == 0 && Kept(op.id) !in known then known[Kept(op.id) := op.initial] else known
    else if out.status == 0 && out.balance.Some? then known[op.id := out.balance.value] else known
  }

  /** The balance of each account as the answers tell it: the initial balance of the create that made it,
      or what the last successful operation on it reported. */
  function Told(ops: seq<Op>, outs: seq<Outcome>): map<Id, real>
    requires |ops| == |outs|
  {
    if ops == [] then map[]
    else
      var n := |ops| - 1;
      Learn(Told(ops[..n], outs[..n]), ops[n], outs[n])
  }

  /** The number of creates that succeeded. */
  function Made(ops: seq<Op>, outs: seq<Outcome>): nat
    requires |ops| == |outs|
  {
    if ops == [] then 0
    else
      var n := |ops| - 1;
      Made(ops[..n], outs[..n]) + if ops[n].Create? && outs[n].status == 0 then 1 else 0
  }

  /** What an operation is to be answered, given the balances told so far and the number of accounts. */
  function Due(rnd: Rounding, known: map<Id, real>, made: nat, op: Op): Outcome {
    match op
    case Create(id, initial) =>
      Outcome(if initial < 0.0 then -1 else if id in known then -2 else if made >= 100 then -3 else 0, None)
    case Deposit(id, amount) =>
      if amount <= 0.0 then Outcome(-1, None)
      else if id !in known then Outcome(-2, None)
      else Outcome(0, Some(rnd(known[id] + amount)))
    case Withdraw(id, amount) =>
      if amount <= 0.0 then Outcome(-1, None)
      else if id !in known then Outcome(-2, None)
      else if known[id] < amount then Outcome(-3, None)
      else Outcome(0, Some(rnd(known[id] - amount)))
    case Query(id) =>
      if id in known then Outcome(0, Some(known[id])) else Outcome(-2, None)
  }

  /** Each answer is the one that is due after the operations and answers before it. */
  predicate Consistent(rnd: Rounding, ops: seq<Op>, outs: seq<Outcome>) {
    && |outs| == |ops|
    && forall k :: 0 <= k < |ops| ==>
         outs[k] == Due(rnd, Told(ops[..k], outs[..k]), Made(ops[..k], outs[..k]), ops[k])
  }

  /** The answers of a run. */
  function Results(rnd: Rounding, ops: seq<Op>): (outs: seq<Outcome>)
    ensures |outs| == |ops| && forall k :: 0 <= k < |ops| ==> outs[k] == ResultAt(rnd, ops, k)
  {
    seq(|ops|, k requires 0 <= k < |ops| => ResultAt(rnd, ops, k))
  }

  lemma ResultsPrefix(rnd: Rounding, ops: seq<Op>, k: nat)
    requires k <= |ops|
    ensures Results(rnd, ops[..k]) == Results(rnd, ops)[..k]
  {
    forall j | 0 <= j < k
      ensures ResultAt(rnd, ops[..k], j) == ResultAt(rnd, ops, j)
    {
      assert ops[..k][..j] == ops[..j];
    }
  }

  // ---------- the table is what has been told ----------

  predicate TellsId(t: Table, known: map<Id, real>, id: Id) {
    && (Find(t, id) >= 0 <==> id in known)
    && (id in known ==> t[Find(t, id)].balance == known[id])
  }

  ghost predicate Tells(t: Table, known: map<Id, real>) {
    forall id :: TellsId(t, known, id)
  }

  lemma FindAppend(t: Table, a: Account, id: Id)
    requires a.active
    ensures Find(t + [a], id) == if Find(t, id) >= 0 then Find(t, id) else if a.id == id then |t| else -1
  {
    assert (t + [a])[..|t|] == t;
  }

  lemma FindUpdate(t: Table, i: nat, balance: real, id: Id)
    requires i < |t|
    ensures Find(t[i := t[i].(balance := balance)], id) == Find(t, id)
  {
    var u := t[i := t[i].(balance := balance)];
    assert forall j :: 0 <= j < |t| ==> u[j].active == t[j].active && u[j].id == t[j].id;
    var r, q := Find(t, id), Find(u, id);
    if r >= 0 && q >= 0 {
      assert !(r < q) && !(q < r);
    }
  }

  /** An operation is answered as is due, and what it is answered tells what it does. */
  lemma ToldCreate(rnd: Rounding, t: Table, known: map<Id, real>, id: Id, initial: real)
    requires Tells(t, known)
    ensures var (u, out) := Apply(rnd, t, Create(id, initial));
            && out == Due(rnd, known, |t|, Create(id, initial))
            && |u| == (if out.status == 0 then |t| + 1 else |t|)
            && Tells(u, Learn(known, Create(id, initial), out))
  {
    assert TellsId(t, known, id) && TellsId(t, known, Kept(id));
    var (u, out) := Apply(rnd, t, Create(id, initial));
    if out.status == 0 {
      var a := Account(Truncate(id), initial, true);
      var now := Learn(known, Create(id, initial), out);
      assert Truncate(id) == Kept(id);
      forall other
        ensures TellsId(u, now, other)
      {
        assert TellsId(t, known, other);
        FindAppend(t, a, other);
      }
    }
  }

  lemma ToldOther(rnd: Rounding, t: Table, known: map<Id, real>, op: Op)
    requires Tells(t, known) && !op.Create?
    ensures var (u, out) := Apply(rnd, t, op);
            && out == Due(rnd, known, |t|, op) && |u| == |t|
            && Tells(u, Learn(known, op, out))
  {
    assert TellsId(t, known, op.id);
    var (u, out) := Apply(rnd, t, op);
    var i := Find(t, op.id);
    var now := Learn(known, op, out);
    forall other
      ensures TellsId(u, now, other)
    {
      assert TellsId(t, known, other);
      if i >= 0 {
        FindUpdate(t, i, u[i].balance, other);
      }
    }
  }

  lemma ToldStep(rnd: Rounding, ops: seq<Op>)
    requires ops != []
    requires var init := ops[..|ops| - 1];
             Tells(Run(rnd, init), Told(init, Results(rnd, init))) && |Run(rnd, init)| == Made(init, Results(rnd, init))
    ensures Tells(Run(rnd, ops), Told(ops, Results(rnd, ops))) && |Run(rnd, ops)| == Made(ops, Results(rnd, ops))
    ensures var init, n := ops[..|ops| - 1], |ops| - 1;
            ResultAt(rnd, ops, n) == Due(rnd, Told(init, Results(rnd, init)), Made(init, Results(rnd, init)), ops[n])
  {
    var n := |ops| - 1;
    var t, known := Run(rnd, ops[..n]), Told(ops[..n], Results(rnd, ops[..n]));
    ResultsPrefix(rnd, ops, n);
    match ops[n] {
      case Create(id, initial) => ToldCreate(rnd, t, known, id, initial);
      case _ => ToldOther(rnd, t, known, ops[n]);
    }
  }

  /** In every run the table is what the answers tell. */
  lemma {:induction false} TableIsTold(rnd: Rounding, ops: seq<Op>)
    ensures Tells(Run(rnd, ops), Told(ops, Results(rnd, ops))) && |Run(rnd, ops)| == Made(ops, Results(rnd, ops))
  {
    if ops != [] {
      TableIsTold(rnd, ops[..|ops| - 1]);
      ToldStep(rnd, ops);
    } else {
      assert forall id :: TellsId([], map[], id);
    }
  }

  /** Every answer of every run follows from the operations and answers before it. */
  lemma {:induction false} RunIsConsistent(rnd: Rounding, ops: seq<Op>)
    ensures Consistent(rnd, ops, Results(rnd, ops))
  {
    var outs := Results(rnd, ops);
    forall k | 0 <= k < |ops|
      ensures outs[k] == Due(rnd, Told(ops[..k], outs[..k]), Made(ops[..k], outs[..k]), ops[k])
    {
      var upTo := ops[..k + 1];
      assert upTo[..k] == ops[..k];
      TableIsTold(rnd, ops[..k]);
      ToldStep(rnd, upTo);
      ResultsPrefix(rnd, ops, k);
    }
  }

  /** What one more operation is answered. */
  lemma NextAnswer(rnd: Rounding, ops: seq<Op>, op: Op)
    ensures var outs := Results(rnd, ops);
            Apply(rnd, Run(rnd, ops), op).1 == Due(rnd, Told(ops, outs), Made(ops, outs), op)
  {
    TableIsTold(rnd, ops);
    match op {
      case Create(id, initial) => ToldCreate(rnd, Run(rnd, ops), Told(ops, Results(rnd, ops)), id, initial);
      case _ => ToldOther(rnd, Run(rnd, ops), Told(ops, Results(rnd, ops)), op);
    }
  }

  // ---------- reported balances ----------

  /** The balance of its account that a successful operation tells. */
  function Reported(op: Op, out: Outcome): real
    requires op.Create? || out.balance.Some?
  {
    if op.Create? then op.initial else out.balance.value
  }

  /** Operation i leaves what is known about id. */
  predicate Leaves(op: Op, out: Outcome, id: Id) {
    out.status != 0 || (op.id != id && (op.Create? ==> Kept(op.id) != id))
  }

  /** Between operations j and k nothing else succeeds on the account. */
  predicate Adjacent(ops: seq<Op>, outs: seq<Outcome>, j: nat, k: nat, id: Id)
    requires |ops| == |outs|
  {
    && j < k < |ops| && ops[j].id == id && ops[k].id == id && !ops[k].Create? && |id| < 20
    && outs[j].status == 0
    && forall i :: j < i < k ==> Leaves(ops[i], outs[i], id)
  }

  lemma {:induction false} ToldStays(rnd: Rounding, ops: seq<Op>, outs: seq<Outcome>, j: nat, k: nat, id: Id)
    requires j < k <= |ops| == |outs| && ops[j].id == id && |id| < 20 && outs[j].status == 0
    requires outs[j] == Due(rnd, Told(ops[..j], outs[..j]), Made(ops[..j], outs[..j]), ops[j])
    requires forall i :: j < i < k ==> Leaves(ops[i], outs[i], id)
    ensures ops[j].Create? || outs[j].balance.Some?
    ensures id in Told(ops[..k], outs[..k]) && Told(ops[..k], outs[..k])[id] == Reported(ops[j], outs[j])
  {
    ToldUpTo(ops, outs, k);
    if k > j + 1 {
      ToldStays(rnd, ops, outs, j, k - 1, id);
      NotLearnt(Told(ops[..k - 1], outs[..k - 1]), ops[k - 1], outs[k - 1], id);
    } else {
      Learnt(rnd, Told(ops[..j], outs[..j]), Made(ops[..j], outs[..j]), ops[j], outs[j]);
    }
  }

  lemma NotLearnt(known: map<Id, real>, op: Op, out: Outcome, id: Id)
    requires Leaves(op, out, id)
    ensures var now := Learn(known, op, out); (id in now <==> id in known) && (id in now ==> now[id] == known[id])
  {
  }

  lemma IsDue(rnd: Rounding, ops: seq<Op>, outs: seq<Outcome>, k: nat)
    requires Consistent(rnd, ops, outs) && k < |ops|
    ensures outs[k] == Due(rnd, Told(ops[..k], outs[..k]), Made(ops[..k], outs[..k]), ops[k])
  {
  }

  lemma ToldUpTo(ops: seq<Op>, outs: seq<Outcome>, k: nat)
    requires 0 < k <= |ops| == |outs|
    ensures Told(ops[..k], outs[..k]) == Learn(Told(ops[..k - 1], outs[..k - 1]), ops[k - 1], outs[k - 1])
  {
    assert ops[..k][..k - 1] == ops[..k - 1] && outs[..k][..k - 1] == outs[..k - 1];
  }

  /** An answer that is due and successful makes the balance that it reports known. */
  lemma Learnt(rnd: Rounding, known: map<Id, real>, made: nat, op: Op, out: Outcome)
    requires out == Due(rnd, known, made, op) && out.status == 0 && |op.id| < 20
    ensures op.Create? || out.balance.Some?
    ensures var now := Learn(known, op, out); op.id in now && now[op.id] == Reported(op, out)
  {
  }

  /** What operation k answers, given the balance v that was reported last. */
  predicate Continues(rnd: Rounding, v: real, op: Op, out: Outcome) {
    match op
    case Create(_, _) => true
    case Deposit(_, amount) => amount > 0.0 ==> out == Outcome(0, Some(rnd(v + amount)))
    case Withdraw(_, amount) =>
      amount > 0.0 ==> out == if v < amount then Outcome(-3, None) else Outcome(0, Some(rnd(v - amount)))
    case Query(_) => out == Outcome(0, Some(v))
  }

  /** After a successful operation on an account the next one on it answers from the balance that was
      reported, whatever other accounts do in between: a query repeats it, a deposit adds to it, a
      withdrawal takes from it if it is enough. */
  lemma {:induction false} ReportsAddUp(rnd: Rounding, ops: seq<Op>, outs: seq<Outcome>, j: nat, k: nat, id: Id)
    requires Consistent(rnd, ops, outs) && Adjacent(ops, outs, j, k, id)
    ensures ops[j].Create? || outs[j].balance.Some?
    ensures Continues(rnd, Reported(ops[j], outs[j]), ops[k], outs[k])
  {
    IsDue(rnd, ops, outs, j);
    ToldStays(rnd, ops, outs, j, k, id);
    IsDue(rnd, ops, outs, k);
  }

  /** With exact sums the amounts add up to the cent. */
  lemma {:induction false} ReportsAddUpExactly(rnd: Rounding, ops: seq<Op>, j: nat, k: nat, id: Id)
    requires Exact(rnd) && Adjacent(ops, Results(rnd, ops), j, k, id)
    ensures var before, after := ResultAt(rnd, ops, j), ResultAt(rnd, ops, k);
            && (ops[j].Create? || before.balance.Some?)
            && Continues(x => x, Reported(ops[j], before), ops[k], after)
  {
    RunIsConsistent(rnd, ops);
    ReportsAddUp(rnd, ops, Results(rnd, ops), j, k, id);
    ContinuesExactly(rnd, Reported(ops[j], ResultAt(rnd, ops, j)), ops[k], ResultAt(rnd, ops, k));
  }

  lemma ContinuesExactly(rnd: Rounding, v: real, op: Op, out: Outcome)
    requires Exact(rnd) && Continues(rnd, v, op, out)
    ensures Continues(x => x, v, op, out)
  {
  }

  // ---------- any number of workers ----------

  /** In every interleaving the returned answers are among answers that follow, each from the operations
      and answers placed before it. */
  lemma {:induction false} ConcurrentAnswers(rnd: Rounding, todos: seq<seq<Op>>, sched: seq<nat>)
    returns (outs: seq<Outcome>)
    requires I.Schedule(sched, |todos|)
    ensures var s := I.Exec(rnd, todos, sched);
            && Consistent(rnd, s.order, outs) && |s.records| == |s.order| && outs == Results(rnd, s.order)
            && forall k :: 0 <= k < |s.records| && s.records[k].ret.Some? ==> s.records[k].ret.value.outcome == outs[k]
  {
    var s := I.Exec(rnd, todos, sched);
    outs := Results(rnd, s.order);
    I.Linearizable(rnd, todos, sched);
    RunIsConsistent(rnd, s.order);
  }

  /** What one call returned, the next successful or failing call on the account, by any worker, goes on
      from, whatever other accounts do in between. */
  lemma {:induction false} ConcurrentReportsAddUp(rnd: Rounding, todos: seq<seq<Op>>, sched: seq<nat>, j: nat, k: nat,
                                                  id: Id)
    requires I.Schedule(sched, |todos|)
    requires var s := I.Exec(rnd, todos, sched);
             && Adjacent(s.order, Results(rnd, s.order), j, k, id) && |s.records| == |s.order|
             && s.records[j].ret.Some? && s.records[k].ret.Some?
    ensures var s := I.Exec(rnd, todos, sched);
            var before, after := s.records[j].ret.value.outcome, s.records[k].ret.value.outcome;
            (s.order[j].Create? || before.balance.Some?)
            && Continues(rnd, Reported(s.order[j], before), s.order[k], after)
  {
    var outs := ConcurrentAnswers(rnd, todos, sched);
    ReportsAddUp(rnd, I.Exec(rnd, todos, sched).order, outs, j, k, id);
  }
}
