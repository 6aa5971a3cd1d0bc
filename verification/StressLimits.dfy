/** The limit of the stress test: with more than 100 clients the account table fills up, and every run
    that finishes has locked out whoever came too late. */
module StressLimits {
  import opened Crypto
  import opened Accounts
  import opened Server
  import opened Stress
  import opened StressPasswords
  import opened StressBank

  /** All clients are through with their rounds. */
  predicate Finished(w: World, rounds: nat) {
    forall c :: 0 <= c < |w.clients| ==> w.clients[c].flows >= rounds
  }

  /** The setting of the theorems: faithful amounts, exact sums, and room in the password table. */
  ghost predicate Setting(m: Platform, ids: seq<Id>, turns: seq<Turn>, rounds: nat) {
    && GoodIds(ids) && Turns(turns, |ids|) && ReadsAmounts(m) && ExactSums(m.rnd, rounds)
    && Roomy(ids, Play(m, ids, turns, rounds))
  }

  // ---------- who has an account at the end ----------

  predicate SameClients(xs: seq<Client>, ids: seq<Id>, rounds: nat) {
    |xs| == |ids| && forall c :: 0 <= c < |xs| ==> xs[c].id == ids[c] && xs[c].flows <= rounds
  }

  lemma MeetKeepsIds(rnd: Rounding, w: World, t: Turn, ids: seq<Id>, rounds: nat)
    requires t.who < |w.clients| && SameClients(w.clients, ids, rounds)
    ensures SameClients(Meet(rnd, w, t, rounds).clients, ids, rounds)
  {
  }

  lemma {:induction false} IdsStay(rnd: Rounding, ids: seq<Id>, turns: seq<Turn>, rounds: nat)
    requires Turns(turns, |ids|)
    ensures SameClients(Tale(rnd, ids, turns, rounds).clients, ids, rounds)
  {
    if turns != [] {
      var init := turns[..|turns| - 1];
      IdsStay(rnd, ids, init, rounds);
      MeetKeepsIds(rnd, Tale(rnd, ids, init, rounds), turns[|turns| - 1], ids, rounds);
    }
  }

  /** 100 clients have an account, or everybody if there are fewer, with that many rounds' money. */
  predicate AllPaid(b: Bank, ids: seq<Id>, rounds: nat) {
    && |b| == (if |ids| <= 100 then |ids| else 100)
    && forall id :: id in b ==> id in ids && b[id] == 1000.0 + 100.0 * rounds as real
  }

  lemma AllThrough(b: Bank, xs: seq<Client>, ids: seq<Id>, rounds: nat)
    requires MapInStep(b, xs) && DistinctIds(xs) && SameClients(xs, ids, rounds)
    requires rounds > 0 && forall c :: 0 <= c < |xs| ==> xs[c].flows >= rounds
    ensures AllPaid(b, ids, rounds)
  {
    IdSetSize(xs);
    if c :| 0 <= c < |xs| && xs[c].id !in b {
      LeftOutAmongMany(b, xs, c);
    } else {
      assert b.Keys == IdSet(xs);
    }
    forall id | id in b
      ensures id in ids && b[id] == Expected(rounds)
    {
      assert id in IdSet(xs);
      var c :| 0 <= c < |xs| && xs[c].id == id;
      assert AccountInStep(b, xs[c]);
    }
  }

  lemma WorldPaid(w: World, ids: seq<Id>, rounds: nat)
    requires AllInStep(w, rounds) && SameClients(w.clients, ids, rounds) && rounds > 0 && Finished(w, rounds)
    ensures AllPaid(BankOf(w), ids, rounds)
  {
    AllThrough(BankOf(w), w.clients, ids, rounds);
  }

  /** When all have finished, 100 clients have an account, or everybody if there are fewer; and each
      account holds 1000 plus 100 for every round. */
  lemma AccountsAtTheEnd(m: Platform, ids: seq<Id>, turns: seq<Turn>, rounds: nat)
    requires Setting(m, ids, turns, rounds) && rounds > 0 && Finished(Play(m, ids, turns, rounds), rounds)
    ensures AllPaid(BankOf(Play(m, ids, turns, rounds)), ids, rounds)
  {
    var w := Tale(m.rnd, ids, turns, rounds);
    PlayIsTale(m, ids, turns, rounds);
    BankThroughout(m.rnd, ids, turns, rounds);
    IdsStay(m.rnd, ids, turns, rounds);
    WorldPaid(w, ids, rounds);
  }

  // ---------- who is locked out ----------

  /** The next request is turned down, if it is one to the bank. */
  predicate Refused(m: Platform, w: World, t: Turn, rounds: nat)
    requires t.who < |w.clients|
  {
    var x := w.clients[t.who];
    x.flows < rounds && Meant(x).Bank? ==> Ask(m, w.sys, x, t).1 == if x.phase.AtCreate? then -3 else -2
  }

  /** Each create of client c has been answered -3 and each deposit -2. */
  predicate LockedOut(m: Platform, ids: seq<Id>, turns: seq<Turn>, c: nat, rounds: nat)
    requires Turns(turns, |ids|)
  {
    turns == []
    || (var init, t := turns[..|turns| - 1], turns[|turns| - 1];
        && LockedOut(m, ids, init, c, rounds)
        && (t.who == c ==> Refused(m, Play(m, ids, init, rounds), t, rounds)))
  }

  /** A client has no account after an exchange iff it had none before and, if the exchange was its
      own, was refused. */
  lemma NoAccountStep(rnd: Rounding, ids: seq<Id>, w: World, t: Turn, u: World, c: nat, rounds: nat)
    requires GoodIds(ids) && SameClients(w.clients, ids, rounds) && t.who < |ids| && c < |ids|
    requires AllInStep(w, rounds) && ServedBetween(rnd, w, t, u, rounds)
    ensures var x := w.clients[t.who];
            ids[c] !in BankOf(u) <==>
              ids[c] !in BankOf(w)
              && (t.who == c && x.flows < rounds && Meant(x).Bank? ==>
                    Heard(rnd, w.sys, x, t).1.status == if x.phase.AtCreate? then -3 else -2)
  {
    var x := w.clients[t.who];
    if x.flows < rounds {
      TouchesSize(BankOf(w), BankOf(u), x.id);
    }
  }

  lemma LockedOutStep(m: Platform, ids: seq<Id>, turns: seq<Turn>, t: Turn, c: nat, rounds: nat)
    requires Setting(m, ids, turns, rounds) && GoodTurn(t) && t.who < |ids| && c < |ids|
    ensures var w := Play(m, ids, turns, rounds);
            ids[c] !in BankOf(Advance(m, w, t, rounds)) <==>
              ids[c] !in BankOf(w) && (t.who == c ==> Refused(m, w, t, rounds))
  {
    var w := Tale(m.rnd, ids, turns, rounds);
    PlayIsTale(m, ids, turns, rounds);
    BankThroughout(m.rnd, ids, turns, rounds);
    IdsStay(m.rnd, ids, turns, rounds);
    AdvanceIsMeet(m, w, t, rounds);
    WireIsTransparent(m, w.sys, w.clients[t.who], t);
    MeetBank(m.rnd, ids, w, t, rounds);
    NoAccountStep(m.rnd, ids, w, t, Meet(m.rnd, w, t, rounds), c, rounds);
  }

  lemma EarlierSetting(m: Platform, ids: seq<Id>, turns: seq<Turn>, rounds: nat)
    requires Setting(m, ids, turns, rounds) && turns != []
    ensures Setting(m, ids, turns[..|turns| - 1], rounds)
  {
    PlayIsTale(m, ids, turns, rounds);
    PlayIsTale(m, ids, turns[..|turns| - 1], rounds);
    PeakGrows(m.rnd, ids, turns, rounds);
  }

  /** A client is locked out exactly as long as it has no account. */
  lemma {:induction false} LockedOutExactly(m: Platform, ids: seq<Id>, turns: seq<Turn>, c: nat, rounds: nat)
    requires Setting(m, ids, turns, rounds) && c < |ids|
    ensures LockedOut(m, ids, turns, c, rounds) <==> ids[c] !in BankOf(Play(m, ids, turns, rounds))
  {
    if turns == [] {
      OpeningAllInStep(ids, rounds);
    } else {
      var init := turns[..|turns| - 1];
      EarlierSetting(m, ids, turns, rounds);
      LockedOutExactly(m, ids, init, c, rounds);
      LockedOutStep(m, ids, init, turns[|turns| - 1], c, rounds);
    }
  }

  /** The limit of the bank: a run that has finished has locked out some client if and only if there
      are more than 100 clients. */
  lemma LimitIsExact(m: Platform, ids: seq<Id>, turns: seq<Turn>, rounds: nat)
    requires Setting(m, ids, turns, rounds) && rounds > 0 && Finished(Play(m, ids, turns, rounds), rounds)
    ensures (exists c :: 0 <= c < |ids| && LockedOut(m, ids, turns, c, rounds)) <==> |ids| > 100
  {
    AccountsAtTheEnd(m, ids, turns, rounds);
    var c := SomeoneWithout(BankOf(Play(m, ids, turns, rounds)), ids, rounds);
    if |ids| > 100 {
      LockedOutExactly(m, ids, turns, c, rounds);
    } else if d :| 0 <= d < |ids| && LockedOut(m, ids, turns, d, rounds) {
      LockedOutExactly(m, ids, turns, d, rounds);
    }
  }

  lemma SomeoneWithout(b: Bank, ids: seq<Id>, rounds: nat) returns (c: nat)
    requires GoodIds(ids) && AllPaid(b, ids, rounds)
    ensures |ids| > MAX_ACCOUNTS ==> c < |ids| && ids[c] !in b
    ensures |ids| <= MAX_ACCOUNTS ==> forall d :: 0 <= d < |ids| ==> ids[d] in b
  {
    var all := set d | 0 <= d < |ids| :: ids[d];
    DistinctSize(ids);
    SubsetSize(b.Keys, all);
    assert |b.Keys| == |b|;
    assert forall d :: 0 <= d < |ids| ==> ids[d] in all;
    c := 0;
    if |ids| > MAX_ACCOUNTS {
      assert b.Keys != all;
      c :| 0 <= c < |ids| && ids[c] !in b;
    }
  }

  lemma {:induction false} DistinctSize(ids: seq<Id>)
    requires forall c, d :: 0 <= c < d < |ids| ==> ids[c] != ids[d]
    ensures |set c | 0 <= c < |ids| :: ids[c]| == |ids|
  {
    if ids != [] {
      var n := |ids| - 1;
      DistinctSize(ids[..n]);
      assert (set c | 0 <= c < |ids| :: ids[c]) == (set c | 0 <= c < n :: ids[..n][c]) + {ids[n]};
    }
  }

  // ---------- every run can be finished ----------

  /** The exchanges that a client has left, at most. */
  function Left(x: Client, rounds: nat): nat {
    if x.flows >= rounds then 0
    else 4 * (rounds - x.flows)
         - match x.phase case AtCreate => 0 case AtOtp => 1 case AtLogin(_) => 2 case AtDeposit => 3
  }

  function AllLeft(xs: seq<Client>, rounds: nat): nat {
    if xs == [] then 0 else AllLeft(xs[..|xs| - 1], rounds) + Left(xs[|xs| - 1], rounds)
  }

  /** What one client's exchange does to the sums over all clients. */
  lemma {:induction false} SumsUpdate(xs: seq<Client>, c: nat, y: Client, rounds: nat)
    requires c < |xs|
    ensures AllLeft(xs[c := y], rounds) == AllLeft(xs, rounds) - Left(xs[c], rounds) + Left(y, rounds)
    ensures Busy(xs[c := y], rounds) == Busy(xs, rounds) - (if InService(xs[c], rounds) then 1 else 0)
                                        + (if InService(y, rounds) then 1 else 0)
  {
    var n := |xs| - 1;
    if c == n {
      assert xs[c := y][..n] == xs[..n];
    } else {
      assert xs[c := y][..n] == xs[..n][c := y];
      SumsUpdate(xs[..n], c, y, rounds);
    }
  }

  /** The client whose exchange needs no further worker, if there is one. */
  lemma {:induction false} NobodyBusy(xs: seq<Client>, rounds: nat)
    requires forall c :: 0 <= c < |xs| ==> !InService(xs[c], rounds)
    ensures Busy(xs, rounds) == 0
  {
    if xs != [] {
      NobodyBusy(xs[..|xs| - 1], rounds);
    }
  }

  lemma NextClientFor(xs: seq<Client>, rounds: nat, workers: nat) returns (c: nat)
    requires workers > 0 && Busy(xs, rounds) <= workers && exists d :: 0 <= d < |xs| && xs[d].flows < rounds
    ensures c < |xs| && xs[c].flows < rounds
    ensures InService(xs[c], rounds) || Busy(xs, rounds) < workers
  {
    if d :| 0 <= d < |xs| && InService(xs[d], rounds) {
      c := d;
    } else {
      NobodyBusy(xs, rounds);
      c :| 0 <= c < |xs| && xs[c].flows < rounds;
    }
  }

  lemma NextLeft(x: Client, status: int, message: seq<byte>, rounds: nat)
    requires x.flows < rounds
    ensures Left(NextClient(x, status, message), rounds) < Left(x, rounds)
  {
  }

  lemma MeetUses(rnd: Rounding, w: World, t: Turn, rounds: nat, workers: nat)
    requires t.who < |w.clients| && w.clients[t.who].flows < rounds && w.peak <= workers
    requires InService(w.clients[t.who], rounds) || Busy(w.clients, rounds) < workers
    requires Busy(w.clients, rounds) <= workers
    ensures var u := Meet(rnd, w, t, rounds);
            && |u.clients| == |w.clients| && AllLeft(u.clients, rounds) < AllLeft(w.clients, rounds)
            && u.peak <= workers && Busy(u.clients, rounds) <= workers
  {
    var (sys, response) := Heard(rnd, w.sys, w.clients[t.who], t);
    NextLeft(w.clients[t.who], response.status, response.message, rounds);
    MoveUses(w, sys, t.who, NextClient(w.clients[t.who], response.status, response.message), rounds, workers);
  }

  lemma MoveUses(w: World, sys: Sys, c: nat, y: Client, rounds: nat, workers: nat)
    requires c < |w.clients| && w.peak <= workers && Busy(w.clients, rounds) <= workers
    requires InService(w.clients[c], rounds) || Busy(w.clients, rounds) < workers
    requires Left(y, rounds) < Left(w.clients[c], rounds)
    ensures var u := MoveOn(w, sys, c, y, rounds);
            && AllLeft(u.clients, rounds) < AllLeft(w.clients, rounds)
            && u.peak <= workers && Busy(u.clients, rounds) <= workers
  {
    SumsUpdate(w.clients, c, y, rounds);
  }

  lemma {:induction false} BusyWithinPeak(rnd: Rounding, ids: seq<Id>, turns: seq<Turn>, rounds: nat)
    requires Turns(turns, |ids|)
    ensures var w := Tale(rnd, ids, turns, rounds); Busy(w.clients, rounds) <= w.peak
  {
    if turns == [] {
      NobodyBusy(Opening(ids).clients, rounds);
    } else {
      BusyWithinPeak(rnd, ids, turns[..|turns| - 1], rounds);
    }
  }

  lemma {:induction false} TaleFinishes(rnd: Rounding, ids: seq<Id>, turns: seq<Turn>, rounds: nat, workers: nat)
    returns (full: seq<Turn>)
    requires Turns(turns, |ids|) && workers > 0 && Tale(rnd, ids, turns, rounds).peak <= workers
    ensures turns <= full && Turns(full, |ids|)
    ensures var w := Tale(rnd, ids, full, rounds); Finished(w, rounds) && w.peak <= workers
    decreases AllLeft(Tale(rnd, ids, turns, rounds).clients, rounds)
  {
    var w := Tale(rnd, ids, turns, rounds);
    full := turns;
    if !Finished(w, rounds) {
      BusyWithinPeak(rnd, ids, turns, rounds);
      var c := NextClientFor(w.clients, rounds, workers);
      TaleExtend(rnd, ids, turns, PlainTurn(c), rounds);
      MeetUses(rnd, w, PlainTurn(c), rounds, workers);
      full := TaleFinishes(rnd, ids, turns + [PlainTurn(c)], rounds, workers);
    }
  }

  /** Every run can be finished without another worker, so what is said about finished runs is said
      about some of them for every number of workers and clients. */
  lemma {:induction false} CanFinish(m: Platform, ids: seq<Id>, turns: seq<Turn>, rounds: nat, workers: nat)
    returns (full: seq<Turn>)
    requires GoodIds(ids) && Turns(turns, |ids|) && ReadsAmounts(m)
    requires workers > 0 && Play(m, ids, turns, rounds).peak <= workers
    ensures turns <= full && Turns(full, |ids|)
    ensures var w := Play(m, ids, full, rounds); Finished(w, rounds) && w.peak <= workers
  {
    PlayIsTale(m, ids, turns, rounds);
    full := TaleFinishes(m.rnd, ids, turns, rounds, workers);
    PlayIsTale(m, ids, full, rounds);
  }
}
