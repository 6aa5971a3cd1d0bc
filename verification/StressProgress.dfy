/** The stress test against the whole server never gets stuck: every run can be continued until all
    clients are through. */
module StressProgress {
  import opened Accounts
  import opened Server
  import opened Stress
  import opened StressPasswords
  import opened StressLimits
  import opened StressService
  import opened ConcurrentStress
  import S = Service
  import M = Machine
  import I = Interleavings

  /** How far a seat is from having a request under way. */
  function SeatRank(seat: Seat, clients: seq<Client>, rounds: nat): nat {
    match seat
    case Empty => 2
    case Seated(c) => if c < |clients| && clients[c].flows < rounds then 1 else 3
    case InFlight(_, _) => 0
  }

  function SeatRanks(seats: seq<Seat>, clients: seq<Client>, rounds: nat): nat {
    if seats == [] then 0
    else SeatRanks(seats[..|seats| - 1], clients, rounds) + SeatRank(seats[|seats| - 1], clients, rounds)
  }

  lemma {:induction false} SeatRanksUpdate(seats: seq<Seat>, clients: seq<Client>, w: nat, seat: Seat, rounds: nat)
    requires w < |seats|
    ensures SeatRanks(seats[w := seat], clients, rounds)
            == SeatRanks(seats, clients, rounds) - SeatRank(seats[w], clients, rounds) + SeatRank(seat, clients, rounds)
  {
    var n := |seats| - 1;
    if w == n {
      assert seats[w := seat][..n] == seats[..n];
    } else {
      assert seats[w := seat][..n] == seats[..n][w := seat];
      SeatRanksUpdate(seats[..n], clients, w, seat, rounds);
    }
  }

  /** The workers that are about to call the password server. */
  function Askers(desks: seq<S.Desk>): nat {
    if desks == [] then 0 else Askers(desks[..|desks| - 1]) + if desks[|desks| - 1].Asking? then 1 else 0
  }

  lemma {:induction false} AskersUpdate(desks: seq<S.Desk>, w: nat, d: S.Desk)
    requires w < |desks|
    ensures Askers(desks[w := d]) == Askers(desks) - (if desks[w].Asking? then 1 else 0) + if d.Asking? then 1 else 0
  {
    var n := |desks| - 1;
    if w == n {
      assert desks[w := d][..n] == desks[..n];
    } else {
      assert desks[w := d][..n] == desks[..n][w := d];
      AskersUpdate(desks[..n], w, d);
    }
  }

  /** The work left in the office. */
  function OfficeLeft(o: S.Office): nat {
    I.Work(o.bank.workers) + Askers(o.desks)
  }

  /** k is nearer to the end than h: an exchange is over, a seat is nearer to one, or a worker is. */
  predicate Nearer(h: Hall, k: Hall, rounds: nat) {
    var a, b := AllLeft(h.clients, rounds), AllLeft(k.clients, rounds);
    b < a
    || (b == a
        && var r, q := SeatRanks(h.seats, h.clients, rounds), SeatRanks(k.seats, k.clients, rounds);
           q < r || (q == r && OfficeLeft(k.office) < OfficeLeft(h.office)))
  }

  // ---------- a request under way ----------

  lemma WorkNearer(m: Platform, o: S.Office, w: nat)
    requires S.Shaped(o) && M.Coherent(o.bank) && w < |o.desks| && o.desks[w].Banking? && M.Enabled(o.bank, w)
    ensures OfficeLeft(S.Next(m, o, S.Work(w))) < OfficeLeft(o)
  {
    var u := S.Next(m, o, S.Work(w));
    assert M.TypedWorker(o.bank, o.bank.workers[w]);
    I.StepWork(m.rnd, o.bank, w);
    AskersUpdate(o.desks, w, u.desks[w]);
    assert u.desks == o.desks[w := u.desks[w]];
  }

  lemma AskNearer(m: Platform, o: S.Office, w: nat)
    requires S.Shaped(o) && w < |o.desks| && o.desks[w].Asking?
    ensures OfficeLeft(S.Next(m, o, S.Ask(w))) < OfficeLeft(o)
  {
    var u := S.Next(m, o, S.Ask(w));
    AskersUpdate(o.desks, w, u.desks[w]);
    assert u.desks == o.desks[w := u.desks[w]];
  }

  /** A worker that is stuck waits for one that is not. */
  lemma SomeoneWorks(m: Platform, h: Hall, w: nat, rounds: nat) returns (v: nat)
    requires StressService.Inv(m, h, rounds) && w < |h.seats| && h.office.desks[w].Banking?
    ensures v < |h.seats| && h.seats[v].InFlight? && h.office.desks[v].Banking? && M.Enabled(h.office.bank, v)
  {
    assert S.DeskOk(m, h.office, w);
    BankingIsBusy(m, h.office, w);
    I.NoDeadlock(h.office.bank);
    v :| 0 <= v < |h.seats| && M.Enabled(h.office.bank, v);
    assert S.DeskOk(m, h.office, v) && SeatOk(m, h, v, Now(h).clients, rounds);
  }

  lemma BankingIsBusy(m: Platform, o: S.Office, w: nat)
    requires S.Shaped(o) && AllReadable(o.log) && w < |o.desks| && S.DeskOk(m, o, w) && o.desks[w].Banking?
    ensures !I.AllFinished(o.bank)
  {
    assert !I.Finished(o.bank.workers[w]);
  }

  lemma GoneOnNearer(m: Platform, h: Hall, e: S.Event, rounds: nat)
    requires Well(h) && e.w < |h.seats| && h.seats[e.w].InFlight?
    requires OfficeLeft(S.Next(m, h.office, e)) < OfficeLeft(h.office)
    ensures Nearer(h, GoneOn(m, h, e, rounds), rounds)
  {
  }

  lemma ReadNearer(m: Platform, h: Hall, w: nat, rounds: nat)
    requires Well(h) && w < |h.seats| && h.seats[w].InFlight? && h.office.desks[w].Answering?
    requires h.clients[h.seats[w].c].flows < rounds
    ensures Nearer(h, Reads(m, h, w), rounds)
  {
    var d, c := h.office.desks[w], h.seats[w].c;
    var (status, message) := Told(m, d.response, d.a.reqId);
    NextLeft(h.clients[c], status, message, rounds);
    SumsUpdate(h.clients, c, NextClient(h.clients[c], status, message), rounds);
  }

  /** Some move of the office, or of the client, when a request is under way. */
  lemma FlightMove(m: Platform, h: Hall, w: nat, rounds: nat) returns (move: Move)
    requires StressService.Inv(m, h, rounds) && w < |h.seats| && h.seats[w].InFlight?
    ensures move.w < |h.seats| && Nearer(h, Next(m, h, move, rounds), rounds)
  {
    assert SeatOk(m, h, w, Now(h).clients, rounds);
    if h.office.desks[w].Asking? {
      move := Ask(w);
      AskNearer(m, h.office, w);
      GoneOnNearer(m, h, S.Ask(w), rounds);
    } else if h.office.desks[w].Answering? {
      move := Read(w);
      ReadNearer(m, h, w, rounds);
    } else {
      var v := SomeoneWorks(m, h, w, rounds);
      move := Work(v);
      WorkNearer(m, h.office, v);
      GoneOnNearer(m, h, S.Work(v), rounds);
    }
  }

  // ---------- no request under way ----------

  lemma SendNearer(m: Platform, h: Hall, w: nat, rounds: nat)
    requires Well(h) && w < |h.seats| && h.seats[w].Seated? && h.clients[h.seats[w].c].flows < rounds
    ensures Nearer(h, Sends(m, h, w, PlainTurn(h.seats[w].c), rounds), rounds)
  {
    var c := h.seats[w].c;
    SeatRanksUpdate(h.seats, h.clients, w, InFlight(c, PlainTurn(c)), rounds);
  }

  lemma AcceptNearer(h: Hall, w: nat, c: nat, rounds: nat)
    requires w < |h.seats| && h.seats[w].Empty? && c < |h.clients| && h.clients[c].flows < rounds
    requires forall v :: 0 <= v < |h.seats| ==> !At(h.seats[v], c)
    ensures Nearer(h, Accepted(h, w, c, rounds), rounds)
  {
    SeatRanksUpdate(h.seats, h.clients, w, Seated(c), rounds);
  }

  lemma CloseNearer(h: Hall, w: nat, rounds: nat)
    requires Well(h) && w < |h.seats| && h.seats[w].Seated? && h.clients[h.seats[w].c].flows >= rounds
    ensures Nearer(h, Closed(h, w, rounds), rounds)
  {
    SeatRanksUpdate(h.seats, h.clients, w, Empty, rounds);
  }

  /** Some move of a client or of a worker that accepts or closes, when no request is under way. */
  lemma SeatMove(m: Platform, h: Hall, c: nat, rounds: nat) returns (move: Move)
    requires Well(h) && |h.seats| > 0 && NobodyInFlight(h) && c < |h.clients| && h.clients[c].flows < rounds
    ensures move.w < |h.seats| && Nearer(h, Next(m, h, move, rounds), rounds)
  {
    if w :| 0 <= w < |h.seats| && h.seats[w].Seated? && h.clients[h.seats[w].c].flows < rounds {
      move := Send(w, PlainTurn(h.seats[w].c));
      SendNearer(m, h, w, rounds);
    } else if w :| 0 <= w < |h.seats| && h.seats[w].Empty? {
      move := Accept(w, c);
      AcceptNearer(h, w, c, rounds);
    } else {
      move := Close(0);
      CloseNearer(h, 0, rounds);
    }
  }

  // ---------- every run can be finished ----------

  lemma SomeMove(m: Platform, h: Hall, rounds: nat) returns (move: Move)
    requires StressService.Inv(m, h, rounds) && |h.seats| > 0 && !AllDone(h, rounds)
    ensures move.w < |h.seats| && Nearer(h, Next(m, h, move, rounds), rounds)
  {
    if w :| 0 <= w < |h.seats| && h.seats[w].InFlight? {
      move := FlightMove(m, h, w, rounds);
    } else {
      var c :| 0 <= c < |h.clients| && h.clients[c].flows < rounds;
      move := SeatMove(m, h, c, rounds);
    }
  }

  lemma VisitExtend(m: Platform, ids: seq<Id>, rounds: nat, workers: nat, moves: seq<Move>, move: Move)
    requires Within(moves, workers) && move.w < workers
    ensures Within(moves + [move], workers)
    ensures Visit(m, ids, rounds, workers, moves + [move])
            == Next(m, Visit(m, ids, rounds, workers, moves), move, rounds)
  {
    assert (moves + [move])[..|moves|] == moves;
  }

  /** From every reachable state, with any number of workers, all clients can get through. */
  lemma {:induction false} AllCanGetThrough(m: Platform, ids: seq<Id>, rounds: nat, workers: nat, moves: seq<Move>)
    returns (full: seq<Move>)
    requires Within(moves, workers) && workers > 0
    ensures moves <= full && Within(full, workers) && AllDone(Visit(m, ids, rounds, workers, full), rounds)
    decreases var h := Visit(m, ids, rounds, workers, moves); AllLeft(h.clients, rounds),
              var h := Visit(m, ids, rounds, workers, moves); SeatRanks(h.seats, h.clients, rounds),
              var h := Visit(m, ids, rounds, workers, moves); OfficeLeft(h.office)
  {
    var h := Visit(m, ids, rounds, workers, moves);
    full := moves;
    if !AllDone(h, rounds) {
      var move := SomeMove(m, h, rounds);
      VisitExtend(m, ids, rounds, workers, moves, move);
      full := AllCanGetThrough(m, ids, rounds, workers, moves + [move]);
    }
  }
}
