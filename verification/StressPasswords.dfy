/** One-time passwords in the stress test: every client's password is there when it logs in, and how
    many clients the password table can take. */
module StressPasswords {
  import opened Otp
  import opened Accounts
  import opened Server
  import opened Stress
  import opened Crypto
  import OtpRuns

  /** The clients that hold a code they have not used yet. */
  function Holders(xs: seq<Client>): (n: nat)
    ensures n <= |xs|
  {
    if xs == [] then 0
    else Holders(xs[..|xs| - 1]) + if xs[|xs| - 1].phase.AtLogin? then 1 else 0
  }

  lemma {:induction false} HoldersUpdate(xs: seq<Client>, c: nat, x: Client)
    requires c < |xs|
    ensures Holders(xs[c := x]) == Holders(xs) - (if xs[c].phase.AtLogin? then 1 else 0)
                                   + (if x.phase.AtLogin? then 1 else 0)
  {
    var ys := xs[c := x];
    if c == |xs| - 1 {
      assert ys[..c] == xs[..c];
    } else {
      assert ys[..|xs| - 1] == xs[..|xs| - 1][c := x];
      HoldersUpdate(xs[..|xs| - 1], c, x);
    }
  }

  function CodesOf(x: Client): seq<Text> {
    if x.phase.AtLogin? then [x.phase.code] else []
  }

  predicate DistinctIds(xs: seq<Client>) {
    forall c, d :: 0 <= c < d < |xs| ==> xs[c].id != xs[d].id
  }

  /** The account's stack holds just the code that its client is about to use. */
  predicate CodeInStep(db: seq<Entry>, x: Client) {
    GoodClient(x) && Stack(db, x.id) == CodesOf(x)
  }

  /** ... for every client, and nothing else is live. */
  predicate PasswordsInStep(db: seq<Entry>, xs: seq<Client>) {
    && |db| == MAX_OTPS && DistinctIds(xs)
    && (forall c :: 0 <= c < |xs| ==> CodeInStep(db, xs[c]))
    && Live(db) == Holders(xs)
  }

  lemma StacksMoveOn(db: seq<Entry>, after: seq<Entry>, xs: seq<Client>, c: nat, y: Client)
    requires PasswordsInStep(db, xs) && c < |xs| && y.id == xs[c].id && |after| == |db|
    requires CodeInStep(after, y) && forall b :: b != y.id ==> Stack(after, b) == Stack(db, b)
    requires Live(after) - Live(db) == (if y.phase.AtLogin? then 1 else 0) - if xs[c].phase.AtLogin? then 1 else 0
    ensures PasswordsInStep(after, xs[c := y])
  {
    var ys := xs[c := y];
    HoldersUpdate(xs, c, y);
    forall d | 0 <= d < |ys|
      ensures CodeInStep(after, ys[d])
    {
      assert d != c ==> CodeInStep(db, xs[d]) && xs[d].id != xs[c].id;
    }
  }

  /** With a free slot at hand a password request succeeds and gives the client its only code. */
  lemma PasswordIssued(db: seq<Entry>, xs: seq<Client>, c: nat, code: Text, expiry: int)
    requires PasswordsInStep(db, xs) && c < |xs| && !xs[c].phase.AtLogin? && Live(db) < MAX_OTPS
    requires FieldText(code, 7)
    ensures var (after, ok) := AfterGenerate(db, xs[c].id, code, expiry);
            ok && PasswordsInStep(after, xs[c := xs[c].(phase := AtLogin(code))])
  {
    var a := xs[c].id;
    var after := AfterGenerate(db, a, code, expiry).0;
    assert CodeInStep(db, xs[c]);
    GenerateRefines(db, a, code, expiry, a);
    forall b | b != a
      ensures Stack(after, b) == Stack(db, b)
    {
      GenerateRefines(db, a, code, expiry, b);
    }
    StacksMoveOn(db, after, xs, c, xs[c].(phase := AtLogin(code)));
  }

  /** The client's login succeeds and uses its code up. */
  lemma PasswordUsed(db: seq<Entry>, xs: seq<Client>, c: nat)
    requires PasswordsInStep(db, xs) && c < |xs| && xs[c].phase.AtLogin?
    ensures var (after, ok) := AfterVerify(db, xs[c].id, xs[c].phase.code);
            ok && PasswordsInStep(after, xs[c := xs[c].(phase := AtDeposit)])
  {
    var a, code := xs[c].id, xs[c].phase.code;
    var after := AfterVerify(db, a, code).0;
    assert CodeInStep(db, xs[c]);
    VerifyRefines(db, a, code, a);
    forall b | b != a
      ensures Stack(after, b) == Stack(db, b)
    {
      VerifyRefines(db, a, code, b);
    }
    StacksMoveOn(db, after, xs, c, xs[c].(phase := AtDeposit));
  }

  lemma PasswordsUntouched(db: seq<Entry>, xs: seq<Client>, c: nat, y: Client)
    requires PasswordsInStep(db, xs) && c < |xs| && !xs[c].phase.AtLogin?
    requires y.id == xs[c].id && !y.phase.AtLogin?
    ensures PasswordsInStep(db, xs[c := y])
  {
    assert CodeInStep(db, xs[c]);
    StacksMoveOn(db, db, xs, c, y);
  }

  /** The client after a step on which its password was there. */
  function Onward(x: Client, e: Env): Client {
    match x.phase
    case AtCreate => x.(phase := AtOtp)
    case AtOtp => x.(phase := AtLogin(Code(e.draw)))
    case AtLogin(_) => x.(phase := AtDeposit)
    case AtDeposit => EndFlow(x)
  }

  lemma IssueHeard(rnd: Rounding, s: Sys, x: Client, t: Turn)
    requires x.phase.AtOtp?
    ensures var (otps, ok) := AfterGenerate(s.otps, x.id, Code(t.env.draw), t.env.now + LIFETIME);
            var (after, response) := Heard(rnd, s, x, t);
            && after == s.(otps := otps)
            && (ok ==> response.status == STATUS_SUCCESS
                       && NextClient(x, response.status, response.message) == Onward(x, t.env))
            && (!ok ==> response.status == STATUS_ERROR)
  {
    CodeExtracted(t.env.draw);
  }

  lemma LoginHeard(rnd: Rounding, s: Sys, x: Client, t: Turn)
    requires x.phase.AtLogin? && AfterVerify(s.otps, x.id, x.phase.code).1
    ensures var (after, response) := Heard(rnd, s, x, t);
            && after == s.(otps := AfterVerify(s.otps, x.id, x.phase.code).0)
            && response.status == STATUS_SUCCESS
  {
  }

  lemma BankHeard(rnd: Rounding, s: Sys, x: Client, t: Turn)
    requires Meant(x).Bank?
    ensures var (after, response) := Heard(rnd, s, x, t);
            && after == s.(table := Apply(rnd, s.table, Meant(x).op).0)
            && response.status == Apply(rnd, s.table, Meant(x).op).1.status
  {
  }

  /** With a free slot at hand every password request succeeds, and so does every login. */
  lemma PasswordStep(rnd: Rounding, s: Sys, xs: seq<Client>, c: nat, t: Turn)
    requires c < |xs| && PasswordsInStep(s.otps, xs)
    requires xs[c].phase.AtOtp? ==> Live(s.otps) < MAX_OTPS
    ensures var (after, response) := Heard(rnd, s, xs[c], t);
            && PasswordsInStep(after.otps, xs[c := Onward(xs[c], t.env)])
            && (Meant(xs[c]).Bank? || response.status == 0)
            && NextClient(xs[c], response.status, response.message) == Onward(xs[c], t.env)
  {
    var x := xs[c];
    if x.phase.AtOtp? {
      CodeExtracted(t.env.draw);
      PasswordIssued(s.otps, xs, c, Code(t.env.draw), t.env.now + LIFETIME);
      IssueHeard(rnd, s, x, t);
    } else if x.phase.AtLogin? {
      PasswordUsed(s.otps, xs, c);
      LoginHeard(rnd, s, x, t);
    } else {
      PasswordsUntouched(s.otps, xs, c, Onward(x, t.env));
      BankHeard(rnd, s, x, t);
    }
  }

  // ---------- clients and workers ----------

  /** A client leaves off only between two rounds. */
  predicate Engaged(xs: seq<Client>, rounds: nat) {
    forall c :: 0 <= c < |xs| && !xs[c].phase.AtCreate? ==> xs[c].flows < rounds
  }

  /** Every holder of a code occupies a worker, and so does a client that is about to ask for one. */
  lemma {:induction false} HoldersAreBusy(xs: seq<Client>, rounds: nat)
    requires Engaged(xs, rounds)
    ensures Holders(xs) <= Busy(xs, rounds)
    ensures forall c :: 0 <= c < |xs| && xs[c].phase.AtOtp? ==> Holders(xs) < Busy(xs, rounds)
  {
    if xs != [] {
      HoldersAreBusy(xs[..|xs| - 1], rounds);
    }
  }

  predicate InStep(w: World, rounds: nat) {
    PasswordsInStep(w.sys.otps, w.clients) && Engaged(w.clients, rounds) && Busy(w.clients, rounds) <= w.peak
  }

  /** A client that is about to ask finds a free slot if there are at most 100 clients, or at most 100
      were ever in service together. */
  lemma RoomForPassword(w: World, c: nat, rounds: nat)
    requires InStep(w, rounds) && c < |w.clients| && w.clients[c].phase.AtOtp?
    requires |w.clients| <= MAX_OTPS || w.peak <= MAX_OTPS
    ensures Live(w.sys.otps) < MAX_OTPS
  {
    HoldersAreBusy(w.clients, rounds);
  }

  lemma MeetInStep(rnd: Rounding, w: World, t: Turn, rounds: nat)
    requires t.who < |w.clients| && InStep(w, rounds)
    requires w.clients[t.who].phase.AtOtp? ==> Live(w.sys.otps) < MAX_OTPS
    ensures InStep(Meet(rnd, w, t, rounds), rounds)
    ensures var x := w.clients[t.who];
            Meet(rnd, w, t, rounds)
            == if x.flows < rounds then MoveOn(w, Heard(rnd, w.sys, x, t).0, t.who, Onward(x, t.env), rounds) else w
  {
    PasswordStep(rnd, w.sys, w.clients, t.who, t);
  }

  lemma PeakGrows(rnd: Rounding, ids: seq<Id>, turns: seq<Turn>, rounds: nat)
    requires Turns(turns, |ids|) && turns != []
    ensures Tale(rnd, ids, turns[..|turns| - 1], rounds).peak <= Tale(rnd, ids, turns, rounds).peak
  {
  }

  lemma {:induction false} NoHolders(xs: seq<Client>)
    requires forall c :: 0 <= c < |xs| ==> !xs[c].phase.AtLogin?
    ensures Holders(xs) == 0
  {
    if xs != [] {
      NoHolders(xs[..|xs| - 1]);
    }
  }

  /** Clients that have not made their first exchange are not in service. */
  lemma {:induction false} BusyBound(xs: seq<Client>, k: nat, rounds: nat)
    requires k <= |xs| && forall c :: k <= c < |xs| ==> !Opened(xs[c])
    ensures Busy(xs, rounds) <= k
  {
    if k < |xs| {
      BusyBound(xs[..|xs| - 1], k, rounds);
    }
  }

  lemma BlankInStep(db: seq<Entry>, xs: seq<Client>)
    requires |db| == MAX_OTPS && forall i :: 0 <= i < |db| ==> !db[i].used
    requires DistinctIds(xs) && GoodClients(xs) && forall c :: 0 <= c < |xs| ==> xs[c].phase.AtCreate?
    ensures PasswordsInStep(db, xs) && Live(db) == 0
  {
    OtpRuns.BlankStacks(db, []);
    NoHolders(xs);
    forall c | 0 <= c < |xs|
      ensures CodeInStep(db, xs[c])
    {
      OtpRuns.BlankStacks(db, xs[c].id);
    }
  }

  lemma OpeningInStep(ids: seq<Id>, rounds: nat)
    requires GoodIds(ids)
    ensures InStep(Opening(ids), rounds) && Live(Opening(ids).sys.otps) == 0
  {
    BlankInStep(Opening(ids).sys.otps, Opening(ids).clients);
    BusyBound(Opening(ids).clients, 0, rounds);
  }

  lemma {:induction false} PasswordsThroughout(rnd: Rounding, ids: seq<Id>, turns: seq<Turn>, rounds: nat)
    requires GoodIds(ids) && Turns(turns, |ids|)
    requires |ids| <= MAX_OTPS || Tale(rnd, ids, turns, rounds).peak <= MAX_OTPS
    ensures InStep(Tale(rnd, ids, turns, rounds), rounds)
  {
    if turns == [] {
      OpeningInStep(ids, rounds);
    } else {
      var w, t := Tale(rnd, ids, turns[..|turns| - 1], rounds), turns[|turns| - 1];
      PeakGrows(rnd, ids, turns, rounds);
      PasswordsThroughout(rnd, ids, turns[..|turns| - 1], rounds);
      if w.clients[t.who].phase.AtOtp? {
        RoomForPassword(w, t.who, rounds);
      }
      MeetInStep(rnd, w, t, rounds);
    }
  }

  // ---------- how many clients the password table can take ----------

  /** After these turns, the next one is a password request, and it is turned down. */
  predicate TurnedDown(m: Platform, ids: seq<Id>, turns: seq<Turn>, t: Turn, rounds: nat)
    requires Turns(turns, |ids|) && t.who < |ids|
  {
    var w := Play(m, ids, turns, rounds);
    var x := w.clients[t.who];
    x.flows < rounds && x.phase.AtOtp? && Ask(m, w.sys, x, t).1 == -1
  }

  function PlainTurn(c: nat): (t: Turn)
    ensures GoodTurn(t) && t.who == c
  {
    Turn(c, Zeros(4), [], [], Env(0.0, 0, 0, []), Zeros(4))
  }

  /** The first k clients, one after the other, create their account and request a password. */
  function Ladder(k: nat, n: nat): (turns: seq<Turn>)
    requires k <= n
    ensures Turns(turns, n)
  {
    if k == 0 then [] else Ladder(k - 1, n) + [PlainTurn(k - 1)] + [PlainTurn(k - 1)]
  }

  /** The clients from k on have not begun. */
  predicate Fresh(xs: seq<Client>, ids: seq<Id>, k: nat) {
    |xs| == |ids| && forall c :: k <= c < |ids| ==> xs[c] == Client(ids[c], AtCreate, 0)
  }

  /** k clients hold a password; the others have not begun. */
  predicate Climbed(w: World, ids: seq<Id>, k: nat, rounds: nat) {
    InStep(w, rounds) && Live(w.sys.otps) == k && w.peak <= k && Fresh(w.clients, ids, k)
  }

  /** ... and client k is between its two requests. */
  predicate Climbing(w: World, ids: seq<Id>, k: nat, rounds: nat) {
    && InStep(w, rounds) && Live(w.sys.otps) == k && w.peak <= k + 1 && Fresh(w.clients, ids, k + 1)
    && k < |ids| && w.clients[k] == Client(ids[k], AtOtp, 0)
  }

  /** Client k moves on to y. */
  lemma Rung(w: World, u: World, ids: seq<Id>, k: nat, y: Client, rounds: nat)
    requires k < |ids| && Fresh(w.clients, ids, k + 1) && InStep(w, rounds) && InStep(u, rounds)
    requires w.peak <= k + 1 && u == MoveOn(w, u.sys, k, y, rounds) && !w.clients[k].phase.AtLogin?
    ensures Fresh(u.clients, ids, k + 1) && u.peak <= k + 1 && u.clients[k] == y
    ensures Live(u.sys.otps) == Live(w.sys.otps) + if y.phase.AtLogin? then 1 else 0
  {
    HoldersUpdate(w.clients, k, y);
    BusyBound(u.clients, k + 1, rounds);
  }

  lemma RungCreate(rnd: Rounding, w: World, ids: seq<Id>, k: nat, rounds: nat)
    requires Climbed(w, ids, k, rounds) && k < |ids| && rounds > 0
    ensures Climbing(Meet(rnd, w, PlainTurn(k), rounds), ids, k, rounds)
  {
    MeetInStep(rnd, w, PlainTurn(k), rounds);
    Rung(w, Meet(rnd, w, PlainTurn(k), rounds), ids, k, Client(ids[k], AtOtp, 0), rounds);
  }

  lemma RungRequest(rnd: Rounding, w: World, ids: seq<Id>, k: nat, rounds: nat)
    requires Climbing(w, ids, k, rounds) && k < MAX_OTPS && rounds > 0
    ensures Climbed(Meet(rnd, w, PlainTurn(k), rounds), ids, k + 1, rounds)
  {
    MeetInStep(rnd, w, PlainTurn(k), rounds);
    Rung(w, Meet(rnd, w, PlainTurn(k), rounds), ids, k, Onward(w.clients[k], PlainTurn(k).env), rounds);
  }

  lemma TaleExtend(rnd: Rounding, ids: seq<Id>, turns: seq<Turn>, t: Turn, rounds: nat)
    requires Turns(turns, |ids|) && GoodTurn(t) && t.who < |ids|
    ensures Turns(turns + [t], |ids|)
    ensures Tale(rnd, ids, turns + [t], rounds) == Meet(rnd, Tale(rnd, ids, turns, rounds), t, rounds)
  {
    assert (turns + [t])[..|turns|] == turns;
  }

  lemma {:induction false} LadderClimbs(rnd: Rounding, ids: seq<Id>, k: nat, rounds: nat)
    requires GoodIds(ids) && k <= |ids| && k <= MAX_OTPS && rounds > 0
    ensures Climbed(Tale(rnd, ids, Ladder(k, |ids|), rounds), ids, k, rounds)
  {
    if k == 0 {
      OpeningInStep(ids, rounds);
    } else {
      LadderClimbs(rnd, ids, k - 1, rounds);
      LadderRung(rnd, ids, Ladder(k - 1, |ids|), k - 1, rounds);
    }
  }

  lemma LadderRung(rnd: Rounding, ids: seq<Id>, turns: seq<Turn>, k: nat, rounds: nat)
    requires k < |ids| && k < MAX_OTPS && rounds > 0 && Turns(turns, |ids|)
    requires Climbed(Tale(rnd, ids, turns, rounds), ids, k, rounds)
    ensures var t := PlainTurn(k);
            Turns(turns + [t] + [t], |ids|)
            && Climbed(Tale(rnd, ids, turns + [t] + [t], rounds), ids, k + 1, rounds)
  {
    var t := PlainTurn(k);
    var w := Tale(rnd, ids, turns, rounds);
    TaleExtend(rnd, ids, turns, t, rounds);
    RungCreate(rnd, w, ids, k, rounds);
    TaleExtend(rnd, ids, turns + [t], t, rounds);
    RungRequest(rnd, Meet(rnd, w, t, rounds), ids, k, rounds);
  }

  lemma FullTableRefuses(rnd: Rounding, w: World, t: Turn, rounds: nat)
    requires t.who < |w.clients| && w.clients[t.who].phase.AtOtp?
    requires InStep(w, rounds) && Live(w.sys.otps) == MAX_OTPS
    ensures Heard(rnd, w.sys, w.clients[t.who], t).1.status == STATUS_ERROR
  {
    var x := w.clients[t.who];
    assert CodeInStep(w.sys.otps, x);
    GenerateRefines(w.sys.otps, x.id, Code(t.env.draw), t.env.now + LIFETIME, x.id);
    IssueHeard(rnd, w.sys, x, t);
  }

  /** With 100 clients in service that hold a password, and one more, that one is turned down. */
  lemma OneTooMany(m: Platform, ids: seq<Id>, rounds: nat) returns (turns: seq<Turn>, t: Turn)
    requires GoodIds(ids) && |ids| > MAX_OTPS && rounds > 0 && ReadsAmounts(m)
    ensures Turns(turns, |ids|) && GoodTurn(t) && t.who < |ids| && TurnedDown(m, ids, turns, t, rounds)
    ensures Play(m, ids, turns, rounds).peak <= MAX_OTPS + 1
  {
    var ladder := Ladder(MAX_OTPS, |ids|);
    t := PlainTurn(MAX_OTPS);
    turns := ladder + [t];
    LadderClimbs(m.rnd, ids, MAX_OTPS, rounds);
    TaleExtend(m.rnd, ids, ladder, t, rounds);
    RungCreate(m.rnd, Tale(m.rnd, ids, ladder, rounds), ids, MAX_OTPS, rounds);
    var w := Tale(m.rnd, ids, turns, rounds);
    FullTableRefuses(m.rnd, w, t, rounds);
    PlayIsTale(m, ids, turns, rounds);
    WireIsTransparent(m, w.sys, w.clients[t.who], t);
  }

  lemma PasswordGranted(rnd: Rounding, w: World, t: Turn, rounds: nat)
    requires t.who < |w.clients| && w.clients[t.who].phase.AtOtp? && InStep(w, rounds)
    requires |w.clients| <= MAX_OTPS || w.peak <= MAX_OTPS
    ensures Heard(rnd, w.sys, w.clients[t.who], t).1.status == STATUS_SUCCESS
  {
    RoomForPassword(w, t.who, rounds);
    PasswordStep(rnd, w.sys, w.clients, t.who, t);
  }

  lemma NeverTurnedDown(m: Platform, ids: seq<Id>, turns: seq<Turn>, t: Turn, rounds: nat)
    requires GoodIds(ids) && Turns(turns, |ids|) && GoodTurn(t) && t.who < |ids| && ReadsAmounts(m)
    requires |ids| <= MAX_OTPS || Play(m, ids, turns, rounds).peak <= MAX_OTPS
    ensures !TurnedDown(m, ids, turns, t, rounds)
  {
    var w := Tale(m.rnd, ids, turns, rounds);
    PlayIsTale(m, ids, turns, rounds);
    PasswordsThroughout(m.rnd, ids, turns, rounds);
    WireIsTransparent(m, w.sys, w.clients[t.who], t);
    if w.clients[t.who].phase.AtOtp? {
      PasswordGranted(m.rnd, w, t, rounds);
    }
  }

  /** A server with the given number of workers never turns a password request of the test down,
      whatever the interleaving, if and only if it has at most 100 workers or there are at most 100
      clients. The server has 5 workers. */
  lemma CapacityIsExact(m: Platform, ids: seq<Id>, rounds: nat, workers: nat)
    requires GoodIds(ids) && rounds > 0 && ReadsAmounts(m)
    ensures (|ids| <= 100 || workers <= 100) <==>
            forall turns, t :: Turns(turns, |ids|) && GoodTurn(t) && t.who < |ids|
                               && Play(m, ids, turns, rounds).peak <= workers ==>
              !TurnedDown(m, ids, turns, t, rounds)
  {
    if |ids| <= 100 || workers <= 100 {
      forall turns, t | Turns(turns, |ids|) && GoodTurn(t) && t.who < |ids|
                        && Play(m, ids, turns, rounds).peak <= workers
        ensures !TurnedDown(m, ids, turns, t, rounds)
      {
        NeverTurnedDown(m, ids, turns, t, rounds);
      }
    } else {
      var turns, t := OneTooMany(m, ids, rounds);
    }
  }
}
