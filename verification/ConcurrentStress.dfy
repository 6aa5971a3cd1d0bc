/** Whole runs of the stress test against the whole server. */
module ConcurrentStress {
  import opened Crypto
  import opened Protocol
  import opened Accounts
  import opened AccountRuns
  import opened Otp
  import opened Server
  import opened Stress
  import opened StressBank
  import opened StressLimits
  import opened StressService
  import S = Service
  import R = ServiceRuns

  predicate Within(moves: seq<Move>, workers: nat) {
    forall k :: 0 <= k < |moves| ==> moves[k].w < workers
  }

  /** The hall after the moves. */
  function Visit(m: Platform, ids: seq<Id>, rounds: nat, workers: nat, moves: seq<Move>): (h: Hall)
    requires Within(moves, workers)
    ensures StressService.Inv(m, h, rounds) && |h.seats| == workers && |h.clients| == |ids|
  {
    if moves == [] then
      DoorsInv(m, workers, ids, rounds);
      Doors(workers, ids)
    else
      var n := |moves| - 1;
      var h := Visit(m, ids, rounds, workers, moves[..n]);
      NextKeeps(m, h, moves[n], rounds);
      SameSeats(m, h, moves[n], rounds);
      Next(m, h, moves[n], rounds)
  }

  // ---------- the history is an interleaving ----------

  function Worlds(m: Platform, ids: seq<Id>, turns: seq<Turn>, rounds: nat): (ws: seq<World>)
    requires Turns(turns, |ids|)
    ensures |ws| == |turns| + 1 && ws[|turns|] == Play(m, ids, turns, rounds)
  {
    if turns == [] then [Stress.Opening(ids)]
    else Worlds(m, ids, turns[..|turns| - 1], rounds) + [Play(m, ids, turns, rounds)]
  }

  lemma {:induction false} WorldsAt(m: Platform, ids: seq<Id>, turns: seq<Turn>, k: nat, rounds: nat)
    requires Turns(turns, |ids|) && k <= |turns|
    ensures Worlds(m, ids, turns, rounds)[k] == Play(m, ids, turns[..k], rounds)
  {
    if k == |turns| {
      assert turns[..k] == turns;
    } else {
      WorldsAt(m, ids, turns[..|turns| - 1], k, rounds);
      assert turns[..|turns| - 1][..k] == turns[..k];
    }
  }

  /** The history of the hall is that of an interleaving. */
  predicate Plays(m: Platform, ids: seq<Id>, turns: seq<Turn>, worlds: seq<World>, rounds: nat) {
    Turns(turns, |ids|) && worlds == Worlds(m, ids, turns, rounds)
  }

  lemma PlaysExtend(m: Platform, ids: seq<Id>, turns: seq<Turn>, worlds: seq<World>, t: Turn, rounds: nat)
    requires Plays(m, ids, turns, worlds, rounds) && GoodTurn(t) && t.who < |ids|
    ensures Plays(m, ids, turns + [t], worlds + [Advance(m, worlds[|turns|], t, rounds)], rounds)
  {
    assert (turns + [t])[..|turns|] == turns;
  }

  /** A move takes one turn, of a client that has a request under way, or none. */
  lemma NextHistory(m: Platform, h: Hall, move: Move, rounds: nat)
    requires StressService.Inv(m, h, rounds) && move.w < |h.seats|
    ensures var k := Next(m, h, move, rounds);
            (k.turns == h.turns && k.worlds == h.worlds)
            || (h.seats[move.w].InFlight?
                && var t := h.seats[move.w].t;
                   GoodTurn(t) && t.who < |h.clients|
                   && k.turns == h.turns + [t] && k.worlds == h.worlds + [Advance(m, Now(h), t, rounds)])
  {
    SameHistory(m, h, move, rounds);
    assert SeatOk(m, h, move.w, Now(h).clients, rounds);
  }

  lemma SameHistory(m: Platform, h: Hall, move: Move, rounds: nat)
    requires Well(h) && move.w < |h.seats|
    ensures var k := Next(m, h, move, rounds);
            (k.turns == h.turns && k.worlds == h.worlds)
            || (h.seats[move.w].InFlight?
                && var t := h.seats[move.w].t;
                   k.turns == h.turns + [t] && k.worlds == h.worlds + [Advance(m, Now(h), t, rounds)])
  {
  }

  lemma {:induction false} VisitPlays(m: Platform, ids: seq<Id>, rounds: nat, workers: nat, moves: seq<Move>)
    requires Within(moves, workers)
    ensures var h := Visit(m, ids, rounds, workers, moves); Plays(m, ids, h.turns, h.worlds, rounds)
  {
    if moves != [] {
      var n := |moves| - 1;
      var h := Visit(m, ids, rounds, workers, moves[..n]);
      VisitPlays(m, ids, rounds, workers, moves[..n]);
      NextPlays(m, ids, h, moves[n], rounds);
    }
  }

  lemma NextPlays(m: Platform, ids: seq<Id>, h: Hall, move: Move, rounds: nat)
    requires StressService.Inv(m, h, rounds) && move.w < |h.seats| && |h.clients| == |ids|
    requires Plays(m, ids, h.turns, h.worlds, rounds)
    ensures var k := Next(m, h, move, rounds); Plays(m, ids, k.turns, k.worlds, rounds)
  {
    NextHistory(m, h, move, rounds);
    if Next(m, h, move, rounds).turns != h.turns {
      PlaysExtend(m, ids, h.turns, h.worlds, h.seats[move.w].t, rounds);
    }
  }

  // ---------- what the clients are told ----------

  lemma LogStep(m: Platform, w: World, u: World, t: Turn, log: seq<Arrival>, a: Arrival, longer: seq<Arrival>,
                rounds: nat)
    requires Link(m, w, t, a, rounds) && AllReadable(longer) && longer == log + [a]
    requires AllReadable(log) && StateAfter(m, Start(), log) == w.sys && u == Advance(m, w, t, rounds)
    ensures StateAfter(m, Start(), longer) == u.sys
  {
    TurnTaken(m, w, log, t, rounds);
  }

  lemma LogPrefix(log: seq<Arrival>, k: nat)
    requires k < |log| && AllReadable(log)
    ensures log[..k + 1] == log[..k] + [log[k]] && AllReadable(log[..k]) && AllReadable(log[..k + 1])
  {
  }

  /** Before its k-th packet the log has led where the first k turns lead. */
  lemma {:induction false} StateBefore(m: Platform, ids: seq<Id>, turns: seq<Turn>, log: seq<Arrival>, k: nat,
                                       rounds: nat)
    requires Turns(turns, |ids|) && Follows(m, Worlds(m, ids, turns, rounds), turns, log, rounds) && k <= |turns|
    ensures StateAfter(m, Start(), log[..k]) == Play(m, ids, turns[..k], rounds).sys
  {
    if k > 0 {
      StateBefore(m, ids, turns, log, k - 1, rounds);
      StateStep(m, ids, turns, log, k - 1, rounds);
    }
  }

  lemma StateStep(m: Platform, ids: seq<Id>, turns: seq<Turn>, log: seq<Arrival>, k: nat, rounds: nat)
    requires Turns(turns, |ids|) && k < |turns| == |log| && AllReadable(log)
    requires StateAfter(m, Start(), log[..k]) == Play(m, ids, turns[..k], rounds).sys
    requires Link(m, Worlds(m, ids, turns, rounds)[k], turns[k], log[k], rounds)
    ensures StateAfter(m, Start(), log[..k + 1]) == Play(m, ids, turns[..k + 1], rounds).sys
  {
    PlayOn(m, ids, turns, k, rounds);
    LogPrefix(log, k);
    WorldsAt(m, ids, turns, k, rounds);
    LogStep(m, Worlds(m, ids, turns, rounds)[k], Play(m, ids, turns[..k + 1], rounds), turns[k],
            log[..k], log[k], log[..k + 1], rounds);
  }

  /** What the client reads from the k-th reply. */
  function ReadAt(m: Platform, log: seq<Arrival>, k: nat): (int, seq<byte>)
    requires AllReadable(log) && k < |log|
  {
    Told(m, ResponseAt(m, Start(), log, k), log[k].reqId)
  }

  /** The client whose turn the k-th is reads what the interleaving has it read. */
  lemma ReadIsAsked(m: Platform, ids: seq<Id>, turns: seq<Turn>, log: seq<Arrival>, k: nat, rounds: nat)
    requires Turns(turns, |ids|) && AllReadable(log) && k < |turns| == |log|
    requires Follows(m, Worlds(m, ids, turns, rounds), turns, log, rounds)
    ensures var w := Play(m, ids, turns[..k], rounds);
            && Link(m, w, turns[k], log[k], rounds)
            && ReadAt(m, log, k).0 == Stress.Ask(m, w.sys, w.clients[turns[k].who], turns[k]).1
  {
    var w := Play(m, ids, turns[..k], rounds);
    WorldsAt(m, ids, turns, k, rounds);
    StateBefore(m, ids, turns, log, k, rounds);
    AskIsTold(m, w.sys, w.clients[turns[k].who], turns[k]);
  }

  lemma {:induction false} PeakOfPrefix(m: Platform, ids: seq<Id>, turns: seq<Turn>, k: nat, rounds: nat)
    requires Turns(turns, |ids|) && k <= |turns|
    ensures Play(m, ids, turns[..k], rounds).peak <= Play(m, ids, turns, rounds).peak
    decreases |turns| - k
  {
    if k == |turns| {
      assert turns[..k] == turns;
    } else {
      PlayOn(m, ids, turns, k, rounds);
      PeakStep(m, Play(m, ids, turns[..k], rounds), turns[k], rounds);
      PeakOfPrefix(m, ids, turns, k + 1, rounds);
    }
  }

  lemma PeakStep(m: Platform, w: World, t: Turn, rounds: nat)
    requires t.who < |w.clients|
    ensures w.peak <= Advance(m, w, t, rounds).peak
  {
  }

  lemma PrefixSetting(m: Platform, ids: seq<Id>, turns: seq<Turn>, k: nat, rounds: nat)
    requires Setting(m, ids, turns, rounds) && k <= |turns|
    ensures Setting(m, ids, turns[..k], rounds)
  {
    PeakOfPrefix(m, ids, turns, k, rounds);
  }

  lemma AskedIsDue(m: Platform, ids: seq<Id>, turns: seq<Turn>, t: Turn, rounds: nat)
    requires Setting(m, ids, turns, rounds) && GoodTurn(t) && t.who < |ids|
    requires Play(m, ids, turns, rounds).clients[t.who].flows < rounds
    ensures var w := Play(m, ids, turns, rounds);
            Stress.Ask(m, w.sys, w.clients[t.who], t).1 == Due(BankOf(w), w.clients[t.who])
  {
    StressTest(m, ids, turns, t, rounds);
  }

  lemma ReadIsDue(m: Platform, ids: seq<Id>, turns: seq<Turn>, log: seq<Arrival>, k: nat, rounds: nat)
    requires AllReadable(log) && k < |turns| == |log| && Setting(m, ids, turns, rounds)
    requires Follows(m, Worlds(m, ids, turns, rounds), turns, log, rounds)
    ensures var w := Play(m, ids, turns[..k], rounds);
            turns[k].who < |w.clients| && ReadAt(m, log, k).0 == Due(BankOf(w), w.clients[turns[k].who])
  {
    ReadIsAsked(m, ids, turns, log, k, rounds);
    PrefixSetting(m, ids, turns, k, rounds);
    AskedIsDue(m, ids, turns[..k], turns[k], rounds);
  }

  // ---------- the theorems ----------

  predicate NobodyInFlight(h: Hall) {
    forall w :: 0 <= w < |h.seats| ==> !h.seats[w].InFlight?
  }

  lemma QuietOffice(m: Platform, h: Hall, rounds: nat)
    requires StressService.Inv(m, h, rounds) && NobodyInFlight(h)
    ensures R.AtRest(h.office) && h.clients == Now(h).clients
  {
    forall w | 0 <= w < |h.office.desks|
      ensures h.office.desks[w].Waiting?
    {
      assert SeatOk(m, h, w, Now(h).clients, rounds);
    }
    assert forall c :: 0 <= c < |h.clients| ==> Now(h).clients[c] == h.clients[c];
  }

  /** The clients of any number of workers, served at the same time, take part in an interleaving of
      single exchanges that never has more clients in service than there are workers; and when no request
      is under way, the clients, the shared memory and the password table are where it has led. */
  lemma {:induction false} ServedAsPlayed(m: Platform, ids: seq<Id>, rounds: nat, workers: nat, moves: seq<Move>)
    requires Within(moves, workers)
    ensures var h := Visit(m, ids, rounds, workers, moves);
            Turns(h.turns, |ids|)
            && var w := Play(m, ids, h.turns, rounds);
               && w.peak <= workers
               && (NobodyInFlight(h) ==>
                     h.clients == w.clients
                     && w.sys == Sys(h.office.bank.slots[..h.office.bank.count], h.office.otps))
  {
    var h := Visit(m, ids, rounds, workers, moves);
    VisitPlays(m, ids, rounds, workers, moves);
    if NobodyInFlight(h) {
      QuietOffice(m, h, rounds);
      R.RestingBank(m, h.office);
    }
  }

  /** A client that unpacks the packet reads the status. */
  predicate Tells(wire: Wire, status: int) {
    InRange(wire)
    && match Unpack(wire, RESPONSE_SIZE)
       case Some(d) => |d| == RESPONSE_SIZE && StatusOf(d) == status
       case None => false
  }

  lemma ReplyTells(m: Platform, response: Response, reqId: Word)
    ensures Tells(Reply(m, response, reqId), Told(m, response, reqId).0)
  {
    RoundTrip(OP_RESPONSE, reqId, Encode(m, response), RESPONSE_SIZE);
  }

  /** The k-th reply, if it has been sent, tells the client the status that is due at its place. */
  predicate ReplyIsDue(m: Platform, ids: seq<Id>, turns: seq<Turn>, notes: seq<S.Note>, k: nat, rounds: nat)
    requires Turns(turns, |ids|) && k < |turns| == |notes|
  {
    notes[k].answer.Some? ==>
      var w := Play(m, ids, turns[..k], rounds);
      Tells(notes[k].answer.value.wire, Due(BankOf(w), w.clients[turns[k].who]))
  }

  predicate RepliesDue(m: Platform, ids: seq<Id>, turns: seq<Turn>, notes: seq<S.Note>, rounds: nat) {
    && Turns(turns, |ids|) && |notes| == |turns|
    && forall k :: 0 <= k < |turns| ==> ReplyIsDue(m, ids, turns, notes, k, rounds)
  }

  lemma ReplyDue(m: Platform, ids: seq<Id>, o: S.Office, turns: seq<Turn>, k: nat, rounds: nat)
    requires S.Shaped(o) && AllReadable(o.log) && k < |turns| == |o.log| && S.NoteOk(m, o, k)
    requires Setting(m, ids, turns, rounds)
    requires Follows(m, Worlds(m, ids, turns, rounds), turns, o.log, rounds)
    ensures ReplyIsDue(m, ids, turns, o.notes, k, rounds)
  {
    ReadIsDue(m, ids, turns, o.log, k, rounds);
    ReplyTells(m, ResponseAt(m, Start(), o.log, k), o.log[k].reqId);
  }

  lemma AllRepliesDue(m: Platform, ids: seq<Id>, o: S.Office, turns: seq<Turn>, rounds: nat)
    requires S.Shaped(o) && AllReadable(o.log) && |turns| == |o.log| && S.NotesOk(m, o)
    requires Setting(m, ids, turns, rounds)
    requires Follows(m, Worlds(m, ids, turns, rounds), turns, o.log, rounds)
    ensures RepliesDue(m, ids, turns, o.notes, rounds)
  {
    forall k | 0 <= k < |turns|
      ensures ReplyIsDue(m, ids, turns, o.notes, k, rounds)
    {
      assert S.NoteOk(m, o, k);
      ReplyDue(m, ids, o, turns, k, rounds);
    }
  }

  predicate AllDone(h: Hall, rounds: nat) {
    forall c :: 0 <= c < |h.clients| ==> h.clients[c].flows >= rounds
  }

  /** The stress test on the whole server, under any interleaving of its steps, with at most 100 workers
      or at most 100 clients: every reply has the status that is due; and when all clients are through,
      shared memory holds the accounts of all of them, or of 100 if there are more, with 1000 plus 100
      for every round, and some client has been locked out iff there are more. */
  lemma {:induction false} StressTestOnServer(m: Platform, ids: seq<Id>, rounds: nat, workers: nat, moves: seq<Move>)
    requires Within(moves, workers) && GoodIds(ids) && ReadsAmounts(m) && ExactSums(m.rnd, rounds)
    requires |ids| <= 100 || workers <= 100
    ensures var h := Visit(m, ids, rounds, workers, moves);
            && RepliesDue(m, ids, h.turns, h.office.notes, rounds)
            && (rounds > 0 && AllDone(h, rounds) ==>
                  AllPaid(MapOf(h.office.bank.slots[..h.office.bank.count]), ids, rounds)
                  && ((exists c :: 0 <= c < |ids| && LockedOut(m, ids, h.turns, c, rounds))
                      <==> |ids| > 100))
  {
    var h := Visit(m, ids, rounds, workers, moves);
    VisitPlays(m, ids, rounds, workers, moves);
    ServedAsPlayed(m, ids, rounds, workers, moves);
    AllRepliesDue(m, ids, h.office, h.turns, rounds);
    if rounds > 0 && AllDone(h, rounds) {
      ThroughIsQuiet(m, h, rounds);
      ThroughIsPaid(m, ids, h.turns, Play(m, ids, h.turns, rounds), h, rounds);
    }
  }

  lemma ThroughIsPaid(m: Platform, ids: seq<Id>, turns: seq<Turn>, w: World, h: Hall, rounds: nat)
    requires Setting(m, ids, turns, rounds) && rounds > 0 && w == Play(m, ids, turns, rounds)
    requires h.clients == w.clients && AllDone(h, rounds)
    ensures AllPaid(MapOf(w.sys.table), ids, rounds)
    ensures (exists c :: 0 <= c < |ids| && LockedOut(m, ids, turns, c, rounds)) <==> |ids| > 100
  {
    AccountsAtTheEnd(m, ids, turns, rounds);
    LimitIsExact(m, ids, turns, rounds);
  }

  /** A client that is through has no request under way. */
  lemma ThroughIsQuiet(m: Platform, h: Hall, rounds: nat)
    requires StressService.Inv(m, h, rounds) && AllDone(h, rounds)
    ensures NobodyInFlight(h)
  {
    forall w | 0 <= w < |h.seats|
      ensures !h.seats[w].InFlight?
    {
      assert SeatOk(m, h, w, Now(h).clients, rounds);
    }
  }
}
