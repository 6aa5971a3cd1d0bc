/** The stress test against the whole server: clients connect to workers, stay for all their rounds,
    and are served at the same time. */
module StressService {
  import opened Crypto
  import opened Protocol
  import opened Accounts
  import opened Server
  import opened Stress
  import S = Service
  import R = ServiceRuns
  import M = Machine

  /** Who is connected to a worker: nobody; a client between two requests; a client with a request under
      way. */
  datatype Seat = Empty | Seated(c: nat) | InFlight(c: nat, t: Turn)

  /** turns and worlds are history: the clients' exchanges in the order of their places in the log, and
      the worlds that the interleaving of these turns goes through. */
  datatype Hall = Hall(
    office: S.Office, seats: seq<Seat>, clients: seq<Client>, turns: seq<Turn>, worlds: seq<World>)

  function Doors(workers: nat, ids: seq<Id>): Hall {
    Hall(S.Opening(workers), seq(workers, w => Empty), Stress.Opening(ids).clients, [], [Stress.Opening(ids)])
  }

  // ---------- one move ----------

  datatype Move =
    | Accept(w: nat, c: nat)   // worker w accepts the connection of client c
    | Send(w: nat, t: Turn)    // the client at worker w sends its next request
    | Work(w: nat)             // worker w steps in its call of the account database
    | Ask(w: nat)              // worker w has the password server handle its request
    | Read(w: nat)             // worker w replies, and its client reads the reply
    | Close(w: nat)            // the client at worker w has finished

  /** The packet of the client's next request. */
  function Packed(m: Platform, x: Client, t: Turn): Arrival {
    Sent(OpcodeFor(Meant(x)), StructFor(m, Meant(x)), t)
  }

  /** The status and message that a client reads from the reply. */
  function Told(m: Platform, response: Response, reqId: Word): (int, seq<byte>) {
    RoundTrip(OP_RESPONSE, reqId, Encode(m, response), RESPONSE_SIZE);
    var reply := Unpack(Reply(m, response, reqId), RESPONSE_SIZE).value;
    (StatusOf(reply), MessageOf(reply))
  }

  predicate At(seat: Seat, c: nat) {
    !seat.Empty? && seat.c == c
  }

  predicate Well(h: Hall) {
    && S.Shaped(h.office) && |h.seats| == |h.office.desks|
    && |h.worlds| == |h.turns| + 1 && |h.worlds[|h.turns|].clients| == |h.clients|
    && (forall w :: 0 <= w < |h.seats| && !h.seats[w].Empty? ==> h.seats[w].c < |h.clients|)
    && (forall w :: 0 <= w < |h.seats| && h.seats[w].InFlight? ==> h.seats[w].t.who == h.seats[w].c)
  }

  /** Where the interleaving has got to. */
  function Now(h: Hall): (w: World)
    requires Well(h)
    ensures |w.clients| == |h.clients|
  {
    h.worlds[|h.turns|]
  }

  /** The office has stepped; the turn of worker w's client is taken if its packet took its place. */
  function Grown(m: Platform, h: Hall, office: S.Office, w: nat, rounds: nat): Hall
    requires Well(h) && w < |h.seats| && h.seats[w].InFlight?
  {
    var t := h.seats[w].t;
    if |office.log| > |h.office.log|
    then h.(office := office, turns := h.turns + [t], worlds := h.worlds + [Advance(m, Now(h), t, rounds)])
    else h.(office := office)
  }

  /** The request of worker w's client goes out. */
  function SendHall(m: Platform, h: Hall, w: nat, t: Turn): Hall
    requires Well(h) && w < |h.seats| && t.who < |h.clients|
  {
    h.(office := S.Next(m, h.office, S.Receive(w, Packed(m, h.clients[t.who], t))),
       seats := h.seats[w := InFlight(t.who, t)])
  }

  /** The reply of worker w goes out, and its client goes on as y. */
  function ReadHall(m: Platform, h: Hall, w: nat, y: Client): Hall
    requires Well(h) && w < |h.seats| && h.seats[w].InFlight?
  {
    h.(office := S.Next(m, h.office, S.Reply(w)), seats := h.seats[w := Seated(h.seats[w].c)],
       clients := h.clients[h.seats[w].c := y])
  }

  // A move that is not possible leaves the hall as it is.

  function Accepted(h: Hall, w: nat, c: nat, rounds: nat): Hall
    requires w < |h.seats|
  {
    if h.seats[w].Empty? && c < |h.clients| && h.clients[c].flows < rounds
       && forall v :: 0 <= v < |h.seats| ==> !At(h.seats[v], c)
    then h.(seats := h.seats[w := Seated(c)]) else h
  }

  function Sends(m: Platform, h: Hall, w: nat, t: Turn, rounds: nat): Hall
    requires Well(h) && w < |h.seats|
  {
    if h.seats[w] == Seated(t.who) && GoodTurn(t) && h.clients[t.who].flows < rounds
    then SendHall(m, h, w, t) else h
  }

  function GoneOn(m: Platform, h: Hall, e: S.Event, rounds: nat): Hall
    requires Well(h) && e.w < |h.seats|
  {
    if h.seats[e.w].InFlight? then Grown(m, h, S.Next(m, h.office, e), e.w, rounds) else h
  }

  function Reads(m: Platform, h: Hall, w: nat): Hall
    requires Well(h) && w < |h.seats|
  {
    var d := h.office.desks[w];
    if h.seats[w].InFlight? && d.Answering? then
      var (status, message) := Told(m, d.response, d.a.reqId);
      ReadHall(m, h, w, NextClient(h.clients[h.seats[w].c], status, message))
    else h
  }

  function Closed(h: Hall, w: nat, rounds: nat): Hall
    requires Well(h) && w < |h.seats|
  {
    if h.seats[w].Seated? && h.clients[h.seats[w].c].flows >= rounds then h.(seats := h.seats[w := Empty]) else h
  }

  function Next(m: Platform, h: Hall, move: Move, rounds: nat): Hall
    requires Well(h) && move.w < |h.seats|
  {
    match move
    case Accept(w, c) => Accepted(h, w, c, rounds)
    case Send(w, t) => Sends(m, h, w, t, rounds)
    case Work(w) => GoneOn(m, h, S.Work(w), rounds)
    case Ask(w) => GoneOn(m, h, S.Ask(w), rounds)
    case Read(w) => Reads(m, h, w)
    case Close(w) => Closed(h, w, rounds)
  }

  // ---------- what every move keeps ----------

  /** In world w, packet a is the exchange of turn t. */
  predicate Link(m: Platform, w: World, t: Turn, a: Arrival, rounds: nat) {
    && t.who < |w.clients| && GoodTurn(t) && w.clients[t.who].flows < rounds
    && a == Packed(m, w.clients[t.who], t)
  }

  /** The packets of the log are the exchanges of the turns. */
  predicate Follows(m: Platform, worlds: seq<World>, turns: seq<Turn>, log: seq<Arrival>, rounds: nat) {
    && |turns| == |log| == |worlds| - 1 && AllReadable(log)
    && forall k :: 0 <= k < |turns| ==> Link(m, worlds[k], turns[k], log[k], rounds)
  }

  /** The client after it has read the reply at place p. */
  function After(m: Platform, x: Client, log: seq<Arrival>, p: nat): Client
    requires AllReadable(log) && p < |log|
  {
    var (status, message) := Told(m, ResponseAt(m, Start(), log, p), log[p].reqId);
    NextClient(x, status, message)
  }

  /** The worker has the packet of its client, and the client's turn has been taken iff the packet has
      its place; x is the client in the interleaving of the turns. */
  predicate SeatOk(m: Platform, h: Hall, w: nat, xs: seq<Client>, rounds: nat)
    requires Well(h) && w < |h.seats| && |xs| == |h.clients| && AllReadable(h.office.log)
  {
    var d := h.office.desks[w];
    match h.seats[w]
    case InFlight(c, t) =>
      && GoodTurn(t) && h.clients[c].flows < rounds
      && (d.Banking? || d.Asking? || d.Answering?) && d.a == Packed(m, h.clients[c], t)
      && var p := S.PlaceOf(h.office, w);
         xs[c] == if p >= 0 then After(m, h.clients[c], h.office.log, p) else h.clients[c]
    case _ => d.Waiting?
  }

  predicate SeatsOk(m: Platform, h: Hall, xs: seq<Client>, rounds: nat)
    requires Well(h) && |xs| == |h.clients| && AllReadable(h.office.log)
  {
    forall w :: 0 <= w < |h.seats| ==> SeatOk(m, h, w, xs, rounds)
  }

  /** No client sits at two workers. */
  predicate Apart(seats: seq<Seat>) {
    forall v, w :: 0 <= v < w < |seats| && !seats[v].Empty? && !seats[w].Empty? ==> seats[v].c != seats[w].c
  }

  /** A client without a request under way is where the interleaving has it. */
  predicate Settled(h: Hall, xs: seq<Client>)
    requires |xs| == |h.clients|
  {
    forall c :: 0 <= c < |xs| && xs[c] != h.clients[c] ==> exists w :: 0 <= w < |h.seats| && At(h.seats[w], c)
                                                                       && h.seats[w].InFlight?
  }

  /** Whoever is in service has a worker. */
  predicate AllSeated(seats: seq<Seat>, xs: seq<Client>, rounds: nat) {
    forall c :: 0 <= c < |xs| && InService(xs[c], rounds) ==> exists w :: 0 <= w < |seats| && At(seats[w], c)
  }

  predicate HallOk(m: Platform, h: Hall, rounds: nat) {
    && Well(h) && Apart(h.seats)
    && Follows(m, h.worlds, h.turns, h.office.log, rounds)
    && var w := Now(h);
       && w.sys == StateAfter(m, Start(), h.office.log)
       && SeatsOk(m, h, w.clients, rounds) && Settled(h, w.clients)
       && AllSeated(h.seats, w.clients, rounds) && w.peak <= |h.seats|
  }

  predicate Inv(m: Platform, h: Hall, rounds: nat) {
    S.Inv(m, h.office) && HallOk(m, h, rounds)
  }

  // ---------- turns and packets ----------

  lemma PackedIsRead(m: Platform, x: Client, t: Turn)
    ensures Readable(Packed(m, x, t)) && !Decode(m, Packed(m, x, t)).Invalid?
  {
    RequestArrives(m, OpcodeFor(Meant(x)), StructFor(m, Meant(x)), t);
  }

  lemma AskIsTold(m: Platform, s: Sys, x: Client, t: Turn)
    ensures FullSize(Packed(m, x, t))
    ensures var (after, response) := Answer(m, s, Packed(m, x, t));
            var (status, message) := Told(m, response, t.replyId);
            Stress.Ask(m, s, x, t) == (after, status, message)
  {
    PackedIsRead(m, x, t);
  }

  /** What an exchange makes of the world, in terms of its packet and response. */
  lemma AdvanceTells(m: Platform, w: World, t: Turn, rounds: nat)
    requires t.who < |w.clients| && w.clients[t.who].flows < rounds
    ensures var x := w.clients[t.who];
            Readable(Packed(m, x, t))
            && var (after, response) := Answer(m, w.sys, Packed(m, x, t));
               var (status, message) := Told(m, response, t.replyId);
               Advance(m, w, t, rounds) == MoveOn(w, after, t.who, NextClient(x, status, message), rounds)
  {
    PackedIsRead(m, w.clients[t.who], t);
    AskIsTold(m, w.sys, w.clients[t.who], t);
  }

  /** A turn is taken and its packet enters the log. */
  lemma TurnTaken(m: Platform, w: World, log: seq<Arrival>, t: Turn, rounds: nat)
    requires t.who < |w.clients| && w.clients[t.who].flows < rounds
    requires AllReadable(log) && StateAfter(m, Start(), log) == w.sys
    ensures var longer := log + [Packed(m, w.clients[t.who], t)];
            && AllReadable(longer)
            && Advance(m, w, t, rounds)
               == MoveOn(w, StateAfter(m, Start(), longer), t.who,
                         After(m, w.clients[t.who], longer, |log|), rounds)
  {
    AdvanceTells(m, w, t, rounds);
    S.LogGrows(m, log, Packed(m, w.clients[t.who], t));
  }

  lemma FollowsExtend(m: Platform, worlds: seq<World>, turns: seq<Turn>, log: seq<Arrival>, t: Turn, a: Arrival,
                      u: World, rounds: nat)
    requires Follows(m, worlds, turns, log, rounds) && Readable(a) && Link(m, worlds[|turns|], t, a, rounds)
    ensures Follows(m, worlds + [u], turns + [t], log + [a], rounds)
  {
  }

  // ---------- the office steps ----------

  predicate HasPacket(d: S.Desk) {
    d.Banking? || d.Asking? || d.Answering?
  }

  /** Worker w goes on with the packet that it has; perhaps the packet takes its place. */
  predicate GoesOn(o: S.Office, u: S.Office, w: nat) {
    && S.Moves(o, u, w) && HasPacket(o.desks[w]) && HasPacket(u.desks[w]) && u.desks[w].a == o.desks[w].a
    && if |u.log| > |o.log|
       then u.log == o.log + [o.desks[w].a] && S.PlaceOf(o, w) == -1 && S.PlaceOf(u, w) == |o.log|
       else u.log == o.log && S.PlaceOf(u, w) == S.PlaceOf(o, w)
  }

  lemma StandsOn(m: Platform, o: S.Office, w: nat)
    requires S.Shaped(o) && w < |o.desks| && HasPacket(o.desks[w])
    ensures GoesOn(o, o.(now := o.now + 1), w)
  {
  }

  lemma WorkGoesOn(m: Platform, o: S.Office, w: nat)
    requires S.Shaped(o) && w < |o.desks| && o.desks[w].Banking? && M.Coherent(o.bank)
    ensures GoesOn(o, S.Next(m, o, S.Work(w)), w)
  {
    S.WorkMoves(m, o, w);
    assert M.TypedWorker(o.bank, o.bank.workers[w]);
  }

  lemma AskGoesOn(m: Platform, o: S.Office, w: nat)
    requires S.Shaped(o) && w < |o.desks| && o.desks[w].Asking? && S.Shaped(S.Next(m, o, S.Ask(w)))
    ensures GoesOn(o, S.Next(m, o, S.Ask(w)), w)
  {
  }

  lemma OfficeGoesOn(m: Platform, o: S.Office, e: S.Event)
    requires S.Inv(m, o) && e.w < |o.desks| && HasPacket(o.desks[e.w]) && (e.Work? || e.Ask?)
    ensures S.Inv(m, S.Next(m, o, e)) && GoesOn(o, S.Next(m, o, e), e.w)
  {
    S.NextKeeps(m, o, e);
    if !S.Acts(o, e) {
      S.StandsStill(m, o, e);
      StandsOn(m, o, e.w);
    } else if e.Work? {
      WorkGoesOn(m, o, e.w);
    } else {
      AskGoesOn(m, o, e.w);
    }
  }

  lemma AfterSame(m: Platform, x: Client, log: seq<Arrival>, longer: seq<Arrival>, p: nat)
    requires AllReadable(log) && AllReadable(longer) && log <= longer && p < |log|
    ensures After(m, x, longer, p) == After(m, x, log, p)
  {
    S.EarlierPlace(m, log, longer, p);
  }

  /** A seat that has no part in the move. */
  lemma OtherSeat(m: Platform, h: Hall, k: Hall, w: nat, v: nat, xs: seq<Client>, ys: seq<Client>, rounds: nat)
    requires Well(h) && Well(k) && v < |h.seats| == |k.seats| && v != w && k.seats[v] == h.seats[v]
    requires S.Moves(h.office, k.office, w) && AllReadable(h.office.log) && AllReadable(k.office.log)
    requires S.DeskOk(m, h.office, v) && S.DeskOk(m, h.office, w)
    requires |xs| == |ys| == |h.clients| == |k.clients|
    requires h.seats[v].InFlight? ==>
               k.clients[h.seats[v].c] == h.clients[h.seats[v].c] && ys[h.seats[v].c] == xs[h.seats[v].c]
    requires SeatOk(m, h, v, xs, rounds)
    ensures SeatOk(m, k, v, ys, rounds)
  {
    S.OtherDesk(m, h.office, k.office, w, v);
    if h.seats[v].InFlight? && S.PlaceOf(h.office, v) >= 0 {
      AfterSame(m, h.clients[h.seats[v].c], h.office.log, k.office.log, S.PlaceOf(h.office, v));
    }
  }

  /** The seat of the worker that goes on. */
  lemma OwnSeat(m: Platform, h: Hall, k: Hall, w: nat, xs: seq<Client>, ys: seq<Client>, rounds: nat)
    requires Well(h) && Well(k) && w < |h.seats| && k.seats == h.seats && k.clients == h.clients
    requires AllReadable(h.office.log) && AllReadable(k.office.log) && |xs| == |ys| == |h.clients|
    requires h.seats[w].InFlight? && SeatOk(m, h, w, xs, rounds) && GoesOn(h.office, k.office, w)
    requires var c := h.seats[w].c;
             ys[c] == if |k.office.log| > |h.office.log|
                      then After(m, h.clients[c], k.office.log, |h.office.log|) else xs[c]
    ensures SeatOk(m, k, w, ys, rounds)
  {
  }

  lemma SeatsGoOn(m: Platform, h: Hall, k: Hall, w: nat, xs: seq<Client>, ys: seq<Client>, rounds: nat)
    requires Well(h) && Well(k) && w < |h.seats| && k.seats == h.seats && k.clients == h.clients && Apart(h.seats)
    requires AllReadable(h.office.log) && AllReadable(k.office.log) && |xs| == |ys| == |h.clients|
    requires S.DesksOk(m, h.office)
    requires h.seats[w].InFlight? && SeatsOk(m, h, xs, rounds) && GoesOn(h.office, k.office, w)
    requires var c := h.seats[w].c;
             ys == xs[c := if |k.office.log| > |h.office.log|
                           then After(m, h.clients[c], k.office.log, |h.office.log|) else xs[c]]
    ensures SeatsOk(m, k, ys, rounds)
  {
    forall v | 0 <= v < |k.seats|
      ensures SeatOk(m, k, v, ys, rounds)
    {
      assert SeatOk(m, h, v, xs, rounds);
      if v == w {
        OwnSeat(m, h, k, w, xs, ys, rounds);
      } else {
        assert S.DeskOk(m, h.office, v) && S.DeskOk(m, h.office, w);
        OtherSeat(m, h, k, w, v, xs, ys, rounds);
      }
    }
  }

  // ---------- no more clients in service than workers ----------

  function Sitting(seats: seq<Seat>): set<nat> {
    set w | 0 <= w < |seats| && !seats[w].Empty? :: seats[w].c
  }

  lemma {:induction false} SittingSize(seats: seq<Seat>)
    ensures |Sitting(seats)| <= |seats|
  {
    if seats != [] {
      var n := |seats| - 1;
      SittingSize(seats[..n]);
      if seats[n].Empty? {
        assert Sitting(seats) == Sitting(seats[..n]);
      } else {
        assert Sitting(seats) == Sitting(seats[..n]) + {seats[n].c};
      }
    }
  }

  function Serving(xs: seq<Client>, rounds: nat): set<nat> {
    set c | 0 <= c < |xs| && InService(xs[c], rounds)
  }

  lemma {:induction false} BusySize(xs: seq<Client>, rounds: nat)
    ensures Busy(xs, rounds) == |Serving(xs, rounds)|
  {
    if xs != [] {
      var n := |xs| - 1;
      BusySize(xs[..n], rounds);
      if InService(xs[n], rounds) {
        assert Serving(xs, rounds) == Serving(xs[..n], rounds) + {n};
      } else {
        assert Serving(xs, rounds) == Serving(xs[..n], rounds);
      }
    }
  }

  lemma {:induction false} SmallerSet(a: set<nat>, b: set<nat>)
    requires a <= b
    ensures |a| <= |b|
  {
    assert b == a + (b - a);
  }

  lemma BusyBySeats(seats: seq<Seat>, xs: seq<Client>, rounds: nat)
    requires AllSeated(seats, xs, rounds)
    ensures Busy(xs, rounds) <= |seats|
  {
    BusySize(xs, rounds);
    SittingSize(seats);
    forall c | c in Serving(xs, rounds)
      ensures c in Sitting(seats)
    {
      var w :| 0 <= w < |seats| && At(seats[w], c);
    }
    SmallerSet(Serving(xs, rounds), Sitting(seats));
  }

  // ---------- every move keeps the invariant ----------

  lemma SeatedUpdate(seats: seq<Seat>, xs: seq<Client>, w: nat, c: nat, y: Client, rounds: nat)
    requires AllSeated(seats, xs, rounds) && w < |seats| && At(seats[w], c) && c < |xs|
    ensures AllSeated(seats, xs[c := y], rounds)
  {
  }

  lemma SettledUpdate(h: Hall, k: Hall, xs: seq<Client>, w: nat, y: Client)
    requires |xs| == |h.clients| && Settled(h, xs) && w < |h.seats| && h.seats[w].InFlight? && h.seats[w].c < |xs|
    requires k.seats == h.seats && k.clients == h.clients
    ensures Settled(k, xs[h.seats[w].c := y])
  {
    assert At(h.seats[w], h.seats[w].c);
  }

  /** The turn that worker w's client is about to take. */
  lemma TurnReady(m: Platform, h: Hall, w: nat, rounds: nat)
    requires Well(h) && AllReadable(h.office.log) && w < |h.seats| && h.seats[w].InFlight?
    requires SeatOk(m, h, w, Now(h).clients, rounds) && S.PlaceOf(h.office, w) == -1
    requires Now(h).sys == StateAfter(m, Start(), h.office.log)
    ensures var t := h.seats[w].t;
            && Now(h).clients[t.who] == h.clients[t.who]
            && h.office.desks[w].a == Packed(m, h.clients[t.who], t)
            && Link(m, Now(h), t, h.office.desks[w].a, rounds)
  {
  }

  /** What the interleaving makes of the turn. */
  lemma TurnGrows(m: Platform, h: Hall, office: S.Office, w: nat, rounds: nat)
    requires Well(h) && Follows(m, h.worlds, h.turns, h.office.log, rounds)
    requires Now(h).sys == StateAfter(m, Start(), h.office.log)
    requires S.Shaped(office) && |office.desks| == |h.seats| && w < |h.seats| && h.seats[w].InFlight?
    requires HasPacket(h.office.desks[w]) && office.log == h.office.log + [h.office.desks[w].a]
    requires Link(m, Now(h), h.seats[w].t, h.office.desks[w].a, rounds)
    requires Now(h).clients[h.seats[w].c] == h.clients[h.seats[w].c]
    ensures var k, c := Grown(m, h, office, w, rounds), h.seats[w].c;
            && Well(k) && Follows(m, k.worlds, k.turns, office.log, rounds)
            && Now(k) == MoveOn(Now(h), StateAfter(m, Start(), office.log), c,
                                After(m, h.clients[c], office.log, |h.office.log|), rounds)
  {
    var t := h.seats[w].t;
    TurnTaken(m, Now(h), h.office.log, t, rounds);
    FollowsExtend(m, h.worlds, h.turns, h.office.log, t, h.office.desks[w].a, Advance(m, Now(h), t, rounds), rounds);
  }

  /** The packet of worker w takes its place, and its client's turn is taken. */
  lemma PlaceTaken(m: Platform, h: Hall, office: S.Office, w: nat, rounds: nat)
    requires HallOk(m, h, rounds) && S.DesksOk(m, h.office) && w < |h.seats| && h.seats[w].InFlight?
    requires S.Shaped(office) && GoesOn(h.office, office, w) && |office.log| > |h.office.log|
    ensures HallOk(m, Grown(m, h, office, w, rounds), rounds)
  {
    var k := Grown(m, h, office, w, rounds);
    var c, xs := h.seats[w].c, Now(h).clients;
    assert SeatOk(m, h, w, xs, rounds);
    TurnReady(m, h, w, rounds);
    TurnGrows(m, h, office, w, rounds);
    SeatsGoOn(m, h, k, w, xs, Now(k).clients, rounds);
    SettledUpdate(h, k, xs, w, Now(k).clients[c]);
    PeakKept(h.seats, Now(h), Now(k), w, c, rounds);
  }

  lemma PeakKept(seats: seq<Seat>, before: World, after: World, w: nat, c: nat, rounds: nat)
    requires AllSeated(seats, before.clients, rounds) && before.peak <= |seats|
    requires w < |seats| && At(seats[w], c) && c < |before.clients| == |after.clients|
    requires after == MoveOn(before, after.sys, c, after.clients[c], rounds)
    ensures AllSeated(seats, after.clients, rounds) && after.peak <= |seats|
  {
    SeatedUpdate(seats, before.clients, w, c, after.clients[c], rounds);
    BusyBySeats(seats, after.clients, rounds);
  }

  lemma PlaceKept(m: Platform, h: Hall, office: S.Office, w: nat, rounds: nat)
    requires HallOk(m, h, rounds) && S.DesksOk(m, h.office) && w < |h.seats| && h.seats[w].InFlight?
    requires S.Shaped(office) && GoesOn(h.office, office, w) && |office.log| <= |h.office.log|
    ensures HallOk(m, Grown(m, h, office, w, rounds), rounds)
  {
    var k := h.(office := office);
    var xs := Now(h).clients;
    assert xs[h.seats[w].c := xs[h.seats[w].c]] == xs;
    SeatsGoOn(m, h, k, w, xs, xs, rounds);
    SettledKept(h, k, xs);
  }

  lemma GrownKeeps(m: Platform, h: Hall, e: S.Event, rounds: nat)
    requires Inv(m, h, rounds) && e.w < |h.seats| && h.seats[e.w].InFlight? && (e.Work? || e.Ask?)
    ensures Inv(m, Grown(m, h, S.Next(m, h.office, e), e.w, rounds), rounds)
  {
    assert SeatOk(m, h, e.w, Now(h).clients, rounds);
    OfficeGoesOn(m, h.office, e);
    var office := S.Next(m, h.office, e);
    if |office.log| > |h.office.log| {
      PlaceTaken(m, h, office, e.w, rounds);
    } else {
      PlaceKept(m, h, office, e.w, rounds);
    }
  }

  /** A client that sits without a request under way is where the interleaving has it. */
  lemma SeatedIsSettled(h: Hall, xs: seq<Client>, w: nat)
    requires |xs| == |h.clients| && Settled(h, xs) && Apart(h.seats) && w < |h.seats|
    requires h.seats[w].Seated? && h.seats[w].c < |xs|
    ensures xs[h.seats[w].c] == h.clients[h.seats[w].c]
  {
    assert forall v :: 0 <= v < |h.seats| && At(h.seats[v], h.seats[w].c) ==> v == w;
  }

  // ---------- seats change hands ----------

  /** A move of worker w alone, with no turn taken. */
  predicate SeatMoves(h: Hall, k: Hall, w: nat) {
    && Well(h) && Well(k) && w < |h.seats| == |k.seats| && |k.clients| == |h.clients|
    && S.Moves(h.office, k.office, w) && k.office.log == h.office.log
    && k.turns == h.turns && k.worlds == h.worlds
    && (forall v :: 0 <= v < |h.seats| && v != w ==> k.seats[v] == h.seats[v])
    && (forall c :: 0 <= c < |h.clients| && !At(h.seats[w], c) ==> k.clients[c] == h.clients[c])
  }

  lemma SeatsStay(m: Platform, h: Hall, k: Hall, w: nat, rounds: nat)
    requires SeatMoves(h, k, w) && Apart(h.seats) && AllReadable(h.office.log) && S.DesksOk(m, h.office)
    requires SeatsOk(m, h, Now(h).clients, rounds) && SeatOk(m, k, w, Now(h).clients, rounds)
    ensures SeatsOk(m, k, Now(k).clients, rounds)
  {
    forall v | 0 <= v < |k.seats|
      ensures SeatOk(m, k, v, Now(h).clients, rounds)
    {
      if v != w {
        assert SeatOk(m, h, v, Now(h).clients, rounds) && S.DeskOk(m, h.office, v) && S.DeskOk(m, h.office, w);
        OtherSeat(m, h, k, w, v, Now(h).clients, Now(h).clients, rounds);
      }
    }
  }

  lemma SeatMoveKeeps(m: Platform, h: Hall, k: Hall, w: nat, rounds: nat)
    requires HallOk(m, h, rounds) && S.DesksOk(m, h.office) && SeatMoves(h, k, w)
    requires SeatOk(m, k, w, Now(h).clients, rounds) && Apart(k.seats)
    requires Settled(k, Now(h).clients) && AllSeated(k.seats, Now(h).clients, rounds)
    ensures HallOk(m, k, rounds)
  {
    SeatsStay(m, h, k, w, rounds);
  }

  /** An empty seat is taken by a client that has none. */
  lemma SeatTaken(seats: seq<Seat>, xs: seq<Client>, w: nat, c: nat, rounds: nat)
    requires w < |seats| && seats[w].Empty? && Apart(seats) && AllSeated(seats, xs, rounds)
    requires forall v :: 0 <= v < |seats| ==> !At(seats[v], c)
    ensures var after := seats[w := Seated(c)]; Apart(after) && AllSeated(after, xs, rounds)
  {
    var after := seats[w := Seated(c)];
    forall d | 0 <= d < |xs| && InService(xs[d], rounds)
      ensures exists v :: 0 <= v < |after| && At(after[v], d)
    {
      var v :| 0 <= v < |seats| && At(seats[v], d);
      assert At(after[v], d);
    }
  }

  /** A seat is left by a client that is not in service, or kept by its client. */
  lemma SeatKept(seats: seq<Seat>, xs: seq<Client>, w: nat, seat: Seat, rounds: nat)
    requires w < |seats| && !seats[w].Empty? && Apart(seats) && AllSeated(seats, xs, rounds)
    requires At(seat, seats[w].c)
             || (seat.Empty? && seats[w].c < |xs| && !InService(xs[seats[w].c], rounds))
    ensures var after := seats[w := seat]; Apart(after) && AllSeated(after, xs, rounds)
  {
    var after := seats[w := seat];
    forall d | 0 <= d < |xs| && InService(xs[d], rounds)
      ensures exists v :: 0 <= v < |after| && At(after[v], d)
    {
      var v :| 0 <= v < |seats| && At(seats[v], d);
      assert At(after[v], d);
    }
  }

  lemma SettledKept(h: Hall, k: Hall, xs: seq<Client>)
    requires |xs| == |h.clients| == |k.clients| && |k.seats| == |h.seats| && Settled(h, xs)
    requires forall c :: 0 <= c < |xs| && k.clients[c] != h.clients[c] ==> xs[c] == k.clients[c]
    requires forall v :: 0 <= v < |h.seats| && h.seats[v].InFlight?
                         && (h.seats[v].c < |xs| ==> xs[h.seats[v].c] != k.clients[h.seats[v].c]) ==>
               k.seats[v].InFlight? && k.seats[v].c == h.seats[v].c
    ensures Settled(k, xs)
  {
    forall c | 0 <= c < |xs| && xs[c] != k.clients[c]
      ensures exists w :: 0 <= w < |k.seats| && At(k.seats[w], c) && k.seats[w].InFlight?
    {
      var v :| 0 <= v < |h.seats| && At(h.seats[v], c) && h.seats[v].InFlight?;
      assert At(k.seats[v], c);
    }
  }

  /** A seat changes between empty and taken. */
  lemma SeatChanges(m: Platform, h: Hall, w: nat, seat: Seat, xs: seq<Client>, rounds: nat)
    requires Well(h) && AllReadable(h.office.log) && w < |h.seats| && |xs| == |h.clients| && Settled(h, xs)
    requires SeatOk(m, h, w, xs, rounds) && !h.seats[w].InFlight? && !seat.InFlight?
    requires seat.Seated? ==> seat.c < |h.clients|
    ensures var k := h.(seats := h.seats[w := seat]);
            SeatMoves(h, k, w) && SeatOk(m, k, w, xs, rounds) && Settled(k, xs)
  {
    SettledKept(h, h.(seats := h.seats[w := seat]), xs);
  }

  lemma AcceptKeeps(m: Platform, h: Hall, w: nat, c: nat, rounds: nat)
    requires HallOk(m, h, rounds) && S.DesksOk(m, h.office)
    requires w < |h.seats| && h.seats[w].Empty? && c < |h.clients|
    requires forall v :: 0 <= v < |h.seats| ==> !At(h.seats[v], c)
    ensures HallOk(m, h.(seats := h.seats[w := Seated(c)]), rounds)
  {
    var xs := Now(h).clients;
    SeatChanges(m, h, w, Seated(c), xs, rounds);
    SeatTaken(h.seats, xs, w, c, rounds);
    SeatMoveKeeps(m, h, h.(seats := h.seats[w := Seated(c)]), w, rounds);
  }

  lemma CloseKeeps(m: Platform, h: Hall, w: nat, rounds: nat)
    requires HallOk(m, h, rounds) && S.DesksOk(m, h.office)
    requires w < |h.seats| && h.seats[w].Seated? && h.seats[w].c < |h.clients|
    requires h.clients[h.seats[w].c].flows >= rounds
    ensures HallOk(m, h.(seats := h.seats[w := Empty]), rounds)
  {
    var xs := Now(h).clients;
    SeatChanges(m, h, w, Empty, xs, rounds);
    SeatedIsSettled(h, xs, w);
    SeatKept(h.seats, xs, w, Empty, rounds);
    SeatMoveKeeps(m, h, h.(seats := h.seats[w := Empty]), w, rounds);
  }

  /** A packet is read and has no place yet. */
  lemma ReadPacket(m: Platform, o: S.Office, w: nat, a: Arrival)
    requires S.Shaped(o) && w < |o.desks| && o.desks[w].Waiting? && o.bank.workers[w].pc.Idle?
    requires Readable(a) && !Decode(m, a).Invalid? && S.Shaped(S.Next(m, o, S.Receive(w, a)))
    ensures var u := S.Next(m, o, S.Receive(w, a));
            && |u.desks| == |o.desks| && u.log == o.log
            && HasPacket(u.desks[w]) && u.desks[w].a == a && S.PlaceOf(u, w) == -1
  {
  }

  lemma SentMoves(m: Platform, h: Hall, w: nat, t: Turn)
    requires Well(h) && w < |h.seats| && h.seats[w] == Seated(t.who) && t.who < |h.clients|
    requires h.office.desks[w].Waiting? && h.office.bank.workers[w].pc.Idle?
    requires S.Shaped(SendHall(m, h, w, t).office)
    ensures SeatMoves(h, SendHall(m, h, w, t), w)
  {
    PackedIsRead(m, h.clients[t.who], t);
    ReadPacket(m, h.office, w, Packed(m, h.clients[t.who], t));
    R.ReceiveReadsOf(m, h.office, w, Packed(m, h.clients[t.who], t));
  }

  lemma SentSeat(m: Platform, h: Hall, w: nat, t: Turn, xs: seq<Client>, rounds: nat)
    requires Well(h) && w < |h.seats| && |xs| == |h.clients| && t.who < |h.clients| && GoodTurn(t)
    requires h.office.desks[w].Waiting? && h.office.bank.workers[w].pc.Idle?
    requires h.clients[t.who].flows < rounds && xs[t.who] == h.clients[t.who] && AllReadable(h.office.log)
    requires Well(SendHall(m, h, w, t))
    ensures var k := SendHall(m, h, w, t); k.office.log == h.office.log && SeatOk(m, k, w, xs, rounds)
  {
    PackedIsRead(m, h.clients[t.who], t);
    ReadPacket(m, h.office, w, Packed(m, h.clients[t.who], t));
  }

  lemma SentOthers(m: Platform, h: Hall, w: nat, t: Turn, xs: seq<Client>, rounds: nat)
    requires Well(h) && w < |h.seats| && h.seats[w] == Seated(t.who) && |xs| == |h.clients| && t.who < |h.clients|
    requires Apart(h.seats) && Settled(h, xs) && AllSeated(h.seats, xs, rounds)
    ensures var k := SendHall(m, h, w, t); Apart(k.seats) && Settled(k, xs) && AllSeated(k.seats, xs, rounds)
  {
    SeatKept(h.seats, xs, w, InFlight(t.who, t), rounds);
    SettledKept(h, SendHall(m, h, w, t), xs);
  }

  lemma SendKeeps(m: Platform, h: Hall, w: nat, t: Turn, rounds: nat)
    requires HallOk(m, h, rounds) && S.DesksOk(m, h.office) && w < |h.seats| && t.who < |h.clients|
    requires h.seats[w] == Seated(t.who) && GoodTurn(t) && h.clients[t.who].flows < rounds
    requires S.Shaped(SendHall(m, h, w, t).office)
    ensures HallOk(m, SendHall(m, h, w, t), rounds)
  {
    var xs := Now(h).clients;
    assert SeatOk(m, h, w, xs, rounds) && S.DeskOk(m, h.office, w);
    SeatedIsSettled(h, xs, w);
    SentMoves(m, h, w, t);
    SentSeat(m, h, w, t, xs, rounds);
    SentOthers(m, h, w, t, xs, rounds);
    SeatMoveKeeps(m, h, SendHall(m, h, w, t), w, rounds);
  }

  /** What the client reads is what the interleaving has it read. */
  lemma ReadIsAfter(m: Platform, h: Hall, w: nat, xs: seq<Client>, rounds: nat)
    requires Well(h) && AllReadable(h.office.log) && w < |h.seats| && |xs| == |h.clients|
    requires h.seats[w].InFlight? && h.office.desks[w].Answering?
    requires SeatOk(m, h, w, xs, rounds) && S.DeskOk(m, h.office, w)
    ensures var d, c := h.office.desks[w], h.seats[w].c;
            var (status, message) := Told(m, d.response, d.a.reqId);
            xs[c] == NextClient(h.clients[c], status, message)
  {
  }

  lemma ReadMoves(m: Platform, h: Hall, w: nat, y: Client)
    requires Well(h) && w < |h.seats| && h.seats[w].InFlight? && h.office.desks[w].Answering?
    requires S.Shaped(S.Next(m, h.office, S.Reply(w)))
    ensures var k := ReadHall(m, h, w, y); SeatMoves(h, k, w) && k.office.desks[w].Waiting?
  {
    S.ReplyMoves(m, h.office, w);
  }

  lemma ReadOthers(m: Platform, h: Hall, w: nat, xs: seq<Client>, rounds: nat)
    requires Well(h) && w < |h.seats| && h.seats[w].InFlight? && |xs| == |h.clients|
    requires Apart(h.seats) && Settled(h, xs) && AllSeated(h.seats, xs, rounds)
    ensures var k := ReadHall(m, h, w, xs[h.seats[w].c]);
            Apart(k.seats) && Settled(k, xs) && AllSeated(k.seats, xs, rounds)
  {
    SeatKept(h.seats, xs, w, Seated(h.seats[w].c), rounds);
    SettledKept(h, ReadHall(m, h, w, xs[h.seats[w].c]), xs);
  }

  lemma ReadKeeps(m: Platform, h: Hall, w: nat, rounds: nat)
    requires HallOk(m, h, rounds) && S.DesksOk(m, h.office) && w < |h.seats|
    requires h.seats[w].InFlight? && h.office.desks[w].Answering?
    requires S.Shaped(S.Next(m, h.office, S.Reply(w)))
    ensures var d := h.office.desks[w];
            var (status, message) := Told(m, d.response, d.a.reqId);
            HallOk(m, ReadHall(m, h, w, NextClient(h.clients[h.seats[w].c], status, message)), rounds)
  {
    var xs, c := Now(h).clients, h.seats[w].c;
    assert SeatOk(m, h, w, xs, rounds) && S.DeskOk(m, h.office, w);
    ReadIsAfter(m, h, w, xs, rounds);
    ReadMoves(m, h, w, xs[c]);
    ReadOthers(m, h, w, xs, rounds);
    SeatMoveKeeps(m, h, ReadHall(m, h, w, xs[c]), w, rounds);
  }

  lemma AcceptInv(m: Platform, h: Hall, w: nat, c: nat, rounds: nat)
    requires Inv(m, h, rounds) && w < |h.seats|
    ensures Inv(m, Accepted(h, w, c, rounds), rounds)
  {
    if h.seats[w].Empty? && c < |h.clients| && forall v :: 0 <= v < |h.seats| ==> !At(h.seats[v], c) {
      AcceptKeeps(m, h, w, c, rounds);
    }
  }

  lemma SendInv(m: Platform, h: Hall, w: nat, t: Turn, rounds: nat)
    requires Inv(m, h, rounds) && w < |h.seats|
    ensures Inv(m, Sends(m, h, w, t, rounds), rounds)
  {
    if h.seats[w] == Seated(t.who) && GoodTurn(t) && h.clients[t.who].flows < rounds {
      SendOffice(m, h, w, t);
      SendKeeps(m, h, w, t, rounds);
    }
  }

  lemma SendOffice(m: Platform, h: Hall, w: nat, t: Turn)
    requires S.Inv(m, h.office) && Well(h) && w < |h.seats| && t.who < |h.clients|
    ensures S.Inv(m, SendHall(m, h, w, t).office)
  {
    S.NextKeeps(m, h.office, S.Receive(w, Packed(m, h.clients[t.who], t)));
  }

  lemma GoInv(m: Platform, h: Hall, e: S.Event, rounds: nat)
    requires Inv(m, h, rounds) && e.w < |h.seats| && (e.Work? || e.Ask?)
    ensures Inv(m, GoneOn(m, h, e, rounds), rounds)
  {
    if h.seats[e.w].InFlight? {
      GrownKeeps(m, h, e, rounds);
    }
  }

  lemma ReadInv(m: Platform, h: Hall, w: nat, rounds: nat)
    requires Inv(m, h, rounds) && w < |h.seats|
    ensures Inv(m, Reads(m, h, w), rounds)
  {
    if h.seats[w].InFlight? && h.office.desks[w].Answering? {
      S.NextKeeps(m, h.office, S.Reply(w));
      ReadKeeps(m, h, w, rounds);
    }
  }

  lemma CloseInv(m: Platform, h: Hall, w: nat, rounds: nat)
    requires Inv(m, h, rounds) && w < |h.seats|
    ensures Inv(m, Closed(h, w, rounds), rounds)
  {
    if h.seats[w].Seated? && h.clients[h.seats[w].c].flows >= rounds {
      CloseKeeps(m, h, w, rounds);
    }
  }

  lemma SameSeats(m: Platform, h: Hall, move: Move, rounds: nat)
    requires Well(h) && move.w < |h.seats|
    ensures |Next(m, h, move, rounds).seats| == |h.seats| && |Next(m, h, move, rounds).clients| == |h.clients|
  {
  }

  /** Every move keeps the invariant. */
  lemma NextKeeps(m: Platform, h: Hall, move: Move, rounds: nat)
    requires Inv(m, h, rounds) && move.w < |h.seats|
    ensures Inv(m, Next(m, h, move, rounds), rounds)
  {
    match move {
      case Accept(w, c) => AcceptInv(m, h, w, c, rounds);
      case Send(w, t) => SendInv(m, h, w, t, rounds);
      case Close(w) => CloseInv(m, h, w, rounds);
      case _ => ServingInv(m, h, move, rounds);
    }
  }

  lemma ServingInv(m: Platform, h: Hall, move: Move, rounds: nat)
    requires Inv(m, h, rounds) && move.w < |h.seats| && (move.Work? || move.Ask? || move.Read?)
    ensures Inv(m, Next(m, h, move, rounds), rounds)
  {
    match move {
      case Work(w) => GoInv(m, h, S.Work(w), rounds);
      case Ask(w) => GoInv(m, h, S.Ask(w), rounds);
      case Read(w) => ReadInv(m, h, w, rounds);
    }
  }

  lemma NobodyInService(ids: seq<Id>, seats: seq<Seat>, rounds: nat)
    ensures AllSeated(seats, Stress.Opening(ids).clients, rounds)
  {
  }

  lemma DoorsInv(m: Platform, workers: nat, ids: seq<Id>, rounds: nat)
    ensures Inv(m, Doors(workers, ids), rounds)
  {
    S.OpeningInv(m, workers);
    NobodyInService(ids, Doors(workers, ids).seats, rounds);
  }
}
