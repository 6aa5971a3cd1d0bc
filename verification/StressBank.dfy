/** Accounts in the stress test: who gets one, what is on it, and what the others are told. */
module StressBank {
  import opened Otp
  import opened Accounts
  import opened AccountRuns
  import opened Server
  import opened Stress
  import opened StressPasswords

  type Bank = map<Id, real>

  function Expected(flows: nat): real {
    1000.0 + 100.0 * flows as real
  }

  /** Rounding is exact on the sums that occur. */
  ghost predicate ExactSums(rnd: Rounding, rounds: nat) {
    forall k: nat :: k < rounds ==> rnd(Expected(k) + 100.0) == Expected(k + 1)
  }

  /** The status that a client's next request gets. */
  function Due(b: Bank, x: Client): int {
    match x.phase
    case AtCreate => if x.id in b then -2 else if |b| < 100 then 0 else -3
    case AtDeposit => if x.id in b then 0 else -2
    case _ => 0
  }

  // ---------- the bank under the discipline of the test ----------

  function IdSet(xs: seq<Client>): set<Id> {
    set c | 0 <= c < |xs| :: xs[c].id
  }

  /** An account belongs to a client that has begun and holds one deposit for each of its rounds; a
      client that has begun without getting an account found 100 others. */
  predicate AccountInStep(b: Bank, x: Client) {
    && (x.id in b ==> Opened(x) && b[x.id] == Expected(x.flows))
    && (Opened(x) && x.id !in b ==> |b| == MAX_ACCOUNTS)
  }

  predicate MapInStep(b: Bank, xs: seq<Client>) {
    && |b| <= MAX_ACCOUNTS && b.Keys <= IdSet(xs)
    && forall c :: 0 <= c < |xs| ==> AccountInStep(b, xs[c])
  }

  predicate BankInStep(t: Table, xs: seq<Client>) {
    WellFormed(t) && Distinct(t) && MapInStep(MapOf(t), xs)
  }

  /** b with perhaps another balance for id. */
  predicate Touches(b: Bank, after: Bank, id: Id) {
    after == b || (id in after && after == b[id := after[id]])
  }

  lemma TouchesSize(b: Bank, after: Bank, id: Id)
    requires Touches(b, after, id)
    ensures |after| == |b| + if id in after && id !in b then 1 else 0
    ensures b.Keys <= after.Keys <= b.Keys + {id}
  {
    if id in after {
      assert after.Keys == b.Keys + {id};
      assert |after.Keys| == |after| && |b.Keys| == |b|;
    }
  }

  /** What a client's request does to the accounts, and its status: only a create that succeeds makes
      an account, and only the client's own. */
  predicate Served(b: Bank, after: Bank, x: Client, status: int) {
    && status == Due(b, x) && Touches(b, after, x.id)
    && (x.id in after && x.id !in b <==> x.phase.AtCreate? && status == STATUS_SUCCESS)
  }

  lemma CreateOnMap(rnd: Rounding, b: Bank, id: Id)
    ensures ApplyMap(rnd, b, Create(id, INITIAL))
            == if id in b then (b, Failed(-2)) else if |b| < MAX_ACCOUNTS then (b[id := INITIAL], Failed(0))
               else (b, Failed(-3))
  {
  }

  lemma DepositOnMap(rnd: Rounding, b: Bank, id: Id)
    ensures var (after, outcome) := ApplyMap(rnd, b, Deposit(id, AMOUNT));
            && after == (if id in b then b[id := rnd(b[id] + AMOUNT)] else b)
            && outcome.status == if id in b then 0 else -2
  {
  }

  lemma OwnCreate(rnd: Rounding, b: Bank, x: Client)
    requires AccountInStep(b, x) && |b| <= MAX_ACCOUNTS && x.phase.AtCreate?
    ensures var (after, outcome) := ApplyMap(rnd, b, Create(x.id, INITIAL));
            && Served(b, after, x, outcome.status) && |after| <= MAX_ACCOUNTS
            && AccountInStep(after, x.(phase := AtOtp))
  {
    CreateOnMap(rnd, b, x.id);
    TouchesSize(b, ApplyMap(rnd, b, Create(x.id, INITIAL)).0, x.id);
  }

  lemma OwnDeposit(rnd: Rounding, b: Bank, x: Client, rounds: nat)
    requires AccountInStep(b, x) && |b| <= MAX_ACCOUNTS && x.phase.AtDeposit?
    requires x.flows < rounds && ExactSums(rnd, rounds)
    ensures var (after, outcome) := ApplyMap(rnd, b, Deposit(x.id, AMOUNT));
            && Served(b, after, x, outcome.status) && |after| <= MAX_ACCOUNTS
            && AccountInStep(after, EndFlow(x))
  {
    DepositOnMap(rnd, b, x.id);
    TouchesSize(b, ApplyMap(rnd, b, Deposit(x.id, AMOUNT)).0, x.id);
    assert rnd(Expected(x.flows) + AMOUNT) == Expected(x.flows + 1);
  }

  /** The client's own exchange with the bank. */
  lemma OwnAccount(rnd: Rounding, b: Bank, x: Client, e: Env, rounds: nat)
    requires AccountInStep(b, x) && |b| <= MAX_ACCOUNTS && Meant(x).Bank?
    requires x.flows < rounds && ExactSums(rnd, rounds)
    ensures var (after, outcome) := ApplyMap(rnd, b, Meant(x).op);
            && Served(b, after, x, outcome.status) && |after| <= MAX_ACCOUNTS
            && AccountInStep(after, Onward(x, e))
  {
    if x.phase.AtCreate? {
      OwnCreate(rnd, b, x);
    } else {
      OwnDeposit(rnd, b, x, rounds);
    }
  }

  /** Accounts stay in step when the client's own account has moved on with it. */
  lemma AccountsMoveOn(b: Bank, after: Bank, xs: seq<Client>, c: nat, y: Client)
    requires MapInStep(b, xs) && DistinctIds(xs) && c < |xs| && y.id == xs[c].id
    requires Touches(b, after, y.id) && |after| <= MAX_ACCOUNTS && AccountInStep(after, y)
    ensures MapInStep(after, xs[c := y])
  {
    var ys := xs[c := y];
    TouchesSize(b, after, y.id);
    SameIds(xs, ys);
    assert y.id in IdSet(xs);
    forall d | 0 <= d < |ys|
      ensures AccountInStep(after, ys[d])
    {
      if d != c {
        assert AccountInStep(b, xs[d]) && xs[d].id != y.id;
      }
    }
  }

  lemma SameIds(xs: seq<Client>, ys: seq<Client>)
    requires |xs| == |ys| && forall c :: 0 <= c < |xs| ==> xs[c].id == ys[c].id
    ensures IdSet(xs) == IdSet(ys)
  {
  }

  /** With ids that fit, the table answers as the map does. */
  lemma TableIsMap(rnd: Rounding, t: Table, x: Client)
    requires GoodClient(x) && Meant(x).Bank? && WellFormed(t) && Distinct(t)
    ensures var (u, outcome) := Apply(rnd, t, Meant(x).op);
            var (after, expected) := ApplyMap(rnd, MapOf(t), Meant(x).op);
            WellFormed(u) && Distinct(u) && MapOf(u) == after && outcome == expected
  {
    var op := Meant(x).op;
    assert !Slips(t, op);
    SlotsAreKept(rnd, t, op);
    DistinctKeptExactly(rnd, t, op);
    RefinesMapExactly(rnd, t, op);
  }

  lemma BankStepOp(rnd: Rounding, t: Table, xs: seq<Client>, c: nat, e: Env, rounds: nat)
    requires c < |xs| && BankInStep(t, xs) && DistinctIds(xs) && GoodClient(xs[c]) && Meant(xs[c]).Bank?
    requires ExactSums(rnd, rounds) && xs[c].flows < rounds
    ensures var (u, outcome) := Apply(rnd, t, Meant(xs[c]).op);
            && BankInStep(u, xs[c := Onward(xs[c], e)])
            && Served(MapOf(t), MapOf(u), xs[c], outcome.status)
  {
    var x := xs[c];
    assert AccountInStep(MapOf(t), x);
    TableIsMap(rnd, t, x);
    OwnAccount(rnd, MapOf(t), x, e, rounds);
    AccountsMoveOn(MapOf(t), ApplyMap(rnd, MapOf(t), Meant(x).op).0, xs, c, Onward(x, e));
  }

  lemma OtpHeard(rnd: Rounding, s: Sys, x: Client, t: Turn)
    requires !Meant(x).Bank?
    ensures Heard(rnd, s, x, t).0.table == s.table
  {
  }

  lemma OtpStep(b: Bank, xs: seq<Client>, c: nat, e: Env)
    requires c < |xs| && MapInStep(b, xs) && DistinctIds(xs) && !Meant(xs[c]).Bank?
    ensures MapInStep(b, xs[c := Onward(xs[c], e)]) && Served(b, b, xs[c], STATUS_SUCCESS)
  {
    assert AccountInStep(b, xs[c]);
    AccountsMoveOn(b, b, xs, c, Onward(xs[c], e));
  }

  /** Every request gets the status that is due, and the accounts move on with the client. */
  lemma BankStep(rnd: Rounding, s: Sys, xs: seq<Client>, t: Turn, rounds: nat)
    requires t.who < |xs| && PasswordsInStep(s.otps, xs) && BankInStep(s.table, xs)
    requires xs[t.who].phase.AtOtp? ==> Live(s.otps) < MAX_OTPS
    requires ExactSums(rnd, rounds) && xs[t.who].flows < rounds
    ensures var x := xs[t.who];
            var (after, response) := Heard(rnd, s, x, t);
            && BankInStep(after.table, xs[t.who := Onward(x, t.env)])
            && Served(MapOf(s.table), MapOf(after.table), x, response.status)
  {
    var x := xs[t.who];
    assert CodeInStep(s.otps, x);
    if Meant(x).Bank? {
      BankHeard(rnd, s, x, t);
      BankStepOp(rnd, s.table, xs, t.who, t.env, rounds);
    } else {
      PasswordStep(rnd, s, xs, t.who, t);
      OtpHeard(rnd, s, x, t);
      OtpStep(MapOf(s.table), xs, t.who, t.env);
    }
  }

  // ---------- whole runs ----------

  /** Room in the password table: at most 100 clients, or at most 100 ever in service together, as on
      any server with at most 100 workers. */
  predicate Roomy(ids: seq<Id>, w: World) {
    |ids| <= 100 || w.peak <= 100
  }

  function BankOf(w: World): Bank {
    MapOf(w.sys.table)
  }

  predicate AllInStep(w: World, rounds: nat) {
    InStep(w, rounds) && BankInStep(w.sys.table, w.clients)
  }

  /** The exchange that leads from w to u is served, if there is one. */
  predicate ServedBetween(rnd: Rounding, w: World, t: Turn, u: World, rounds: nat)
    requires t.who < |w.clients|
  {
    var x := w.clients[t.who];
    if x.flows < rounds then Served(BankOf(w), BankOf(u), x, Heard(rnd, w.sys, x, t).1.status) else u == w
  }

  lemma MeetBank(rnd: Rounding, ids: seq<Id>, w: World, t: Turn, rounds: nat)
    requires t.who < |w.clients| == |ids| && AllInStep(w, rounds) && Roomy(ids, w) && ExactSums(rnd, rounds)
    ensures var u := Meet(rnd, w, t, rounds); AllInStep(u, rounds) && ServedBetween(rnd, w, t, u, rounds)
  {
    if w.clients[t.who].phase.AtOtp? {
      RoomForPassword(w, t.who, rounds);
    }
    MeetInStep(rnd, w, t, rounds);
    if w.clients[t.who].flows < rounds {
      BankStep(rnd, w.sys, w.clients, t, rounds);
    }
  }

  lemma OpeningAllInStep(ids: seq<Id>, rounds: nat)
    requires GoodIds(ids)
    ensures AllInStep(Opening(ids), rounds) && BankOf(Opening(ids)) == map[]
  {
    OpeningInStep(ids, rounds);
  }

  lemma {:induction false} BankThroughout(rnd: Rounding, ids: seq<Id>, turns: seq<Turn>, rounds: nat)
    requires GoodIds(ids) && Turns(turns, |ids|) && ExactSums(rnd, rounds)
    requires Roomy(ids, Tale(rnd, ids, turns, rounds))
    ensures AllInStep(Tale(rnd, ids, turns, rounds), rounds)
  {
    if turns == [] {
      OpeningAllInStep(ids, rounds);
    } else {
      PeakGrows(rnd, ids, turns, rounds);
      BankThroughout(rnd, ids, turns[..|turns| - 1], rounds);
      MeetBank(rnd, ids, Tale(rnd, ids, turns[..|turns| - 1], rounds), turns[|turns| - 1], rounds);
    }
  }

  lemma {:induction false} IdSetSize(xs: seq<Client>)
    requires DistinctIds(xs)
    ensures |IdSet(xs)| == |xs|
  {
    if xs != [] {
      var init := xs[..|xs| - 1];
      IdSetSize(init);
      assert IdSet(xs) == IdSet(init) + {xs[|xs| - 1].id};
      assert xs[|xs| - 1].id !in IdSet(init);
    }
  }

  lemma SubsetSize(a: set<Id>, b: set<Id>)
    requires a <= b
    ensures |a| <= |b| && (|a| == |b| ==> a == b)
  {
    assert b == a + (b - a);
  }

  /** A client that is left without an account has more than 99 others beside it. */
  lemma LeftOutAmongMany(b: Bank, xs: seq<Client>, c: nat)
    requires MapInStep(b, xs) && DistinctIds(xs) && c < |xs| && Opened(xs[c]) && xs[c].id !in b
    ensures |xs| > MAX_ACCOUNTS && |b| == MAX_ACCOUNTS
  {
    IdSetSize(xs);
    assert AccountInStep(b, xs[c]);
    assert xs[c].id in IdSet(xs);
    SubsetSize(b.Keys + {xs[c].id}, IdSet(xs));
    assert |b.Keys + {xs[c].id}| == |b.Keys| + 1 == |b| + 1;
  }

  /** The stress test, over the wire, on a server with at most 100 workers or with at most 100 clients,
      under any interleaving: password requests, logins and all else succeed, except that a repeated
      create is answered -2, and that once 100 others have an account, creates are answered -3 and
      deposits -2; whoever has an account holds 1000 plus 100 for each finished flow, and with at most
      100 clients whoever has begun has an account. */
  lemma {:induction false} StressTest(m: Platform, ids: seq<Id>, turns: seq<Turn>, t: Turn, rounds: nat)
    requires GoodIds(ids) && Turns(turns, |ids|) && GoodTurn(t) && t.who < |ids|
    requires ReadsAmounts(m) && ExactSums(m.rnd, rounds) && Roomy(ids, Play(m, ids, turns, rounds))
    ensures var w := Play(m, ids, turns, rounds);
            var x, b := w.clients[t.who], BankOf(w);
            && (x.flows < rounds ==> Ask(m, w.sys, x, t).1 == Due(b, x))
            && (x.id in b ==> Opened(x) && b[x.id] == 1000.0 + 100.0 * x.flows as real)
            && (Opened(x) && x.id !in b ==> |b| == 100 && |ids| > 100)
  {
    var w := Tale(m.rnd, ids, turns, rounds);
    var x := w.clients[t.who];
    PlayIsTale(m, ids, turns, rounds);
    BankThroughout(m.rnd, ids, turns, rounds);
    WireIsTransparent(m, w.sys, x, t);
    MeetBank(m.rnd, ids, w, t, rounds);
    assert AccountInStep(BankOf(w), x);
    if Opened(x) && x.id !in BankOf(w) {
      LeftOutAmongMany(BankOf(w), w.clients, t.who);
    }
  }
}
