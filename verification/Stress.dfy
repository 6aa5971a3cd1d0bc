/** The stress test of stress_test/stress_client.c: many clients, each looping create account, request
    a one-time password, log in with it, deposit, against the bank and the password table. */
module Stress {
  import opened Crypto
  import opened Protocol
  import opened Accounts
  import opened Otp
  import opened Server
  import opened Options

  const INITIAL := 1000.0
  const AMOUNT := 100.0

  /** Whose turn it is, and what that exchange draws from the outside. */
  datatype Turn = Turn(who: nat, requestId: Word, beyond: seq<byte>, stack: seq<byte>, env: Env, replyId: Word)

  predicate GoodTurn(t: Turn) {
    PlainText(t.env)
  }

  // ---------- one request and its reply ----------

  /** The client's packet, as it reaches the server. */
  function Sent(opcode: nat, payload: seq<byte>, t: Turn): Arrival
    requires StructSize(opcode) == Some(|payload|)
  {
    Arrival(Packet(opcode, t.requestId, payload), t.beyond, t.stack, t.env, t.replyId)
  }

  /** perform_request, outward: the server reads exactly the struct that the client filled. */
  lemma RequestArrives(m: Platform, opcode: nat, payload: seq<byte>, t: Turn)
    requires StructSize(opcode) == Some(|payload|)
    ensures Readable(Sent(opcode, payload, t))
    ensures Decode(m, Sent(opcode, payload, t)) == Interpret(m, opcode, payload)
  {
    PacketDecodes(m, opcode, payload, t.requestId, Sent(opcode, payload, t));
  }

  /** perform_request, homeward: the client unpacks the server's status and message. */
  lemma {:induction false} ReplyArrives(m: Platform, s: Sys, request: Request, t: Turn)
    requires GoodTurn(t)
    ensures var response := Dispatch(m.rnd, s, request, t.env).1;
            var reply := Unpack(Reply(m, response, t.replyId), RESPONSE_SIZE);
            reply == Some(Encode(m, response))
            && StatusOf(reply.value) == response.status && MessageOf(reply.value) == response.message
  {
    ResponseFits(m.rnd, s, request, t.env);
    ReplyRoundTrip(m, Dispatch(m.rnd, s, request, t.env).1, t.replyId);
  }

  // ---------- a client ----------

  datatype Phase = AtCreate | AtOtp | AtLogin(code: seq<byte>) | AtDeposit

  /** flows counts the finished rounds of the loop. */
  datatype Client = Client(id: Id, phase: Phase, flows: nat)

  predicate ColonAt(message: seq<byte>, i: int) {
    0 <= i && i + 2 <= |message| && message[i] == 58 && message[i + 1] == 32
  }

  /** strstr(message + from, ": "), as an index; -1 for NULL. */
  function Colon(message: seq<byte>, from: nat): (r: int)
    ensures r == -1 || (from <= r && ColonAt(message, r))
    ensures forall i :: from <= i && (i < r || r < 0) ==> !ColonAt(message, i)
    decreases |message| - from
  {
    if from + 2 > |message| then -1
    else if ColonAt(message, from) then from
    else Colon(message, from + 1)
  }

  /** The code in the message, at most 8 characters. */
  function Extract(message: seq<byte>): seq<byte>
    requires Colon(message, 0) >= 0
  {
    Clip(message[Colon(message, 0) + 2..], 8)
  }

  /** What the client asks for next. */
  function Meant(x: Client): (r: Request)
    ensures !r.Invalid?
  {
    match x.phase
    case AtCreate => Bank(Create(x.id, INITIAL))
    case AtOtp => NewOtp(x.id)
    case AtLogin(code) => CheckOtp(x.id, code)
    case AtDeposit => Bank(Deposit(x.id, AMOUNT))
  }

  function EndFlow(x: Client): Client {
    x.(phase := AtCreate, flows := x.flows + 1)
  }

  /** What the client does with the status and message of a reply; the create's status is ignored. */
  function NextClient(x: Client, status: int, message: seq<byte>): Client {
    match x.phase
    case AtCreate => x.(phase := AtOtp)
    case AtOtp =>
      if status == STATUS_SUCCESS && Colon(message, 0) >= 0 then x.(phase := AtLogin(Extract(message)))
      else EndFlow(x)
    case AtLogin(_) => if status == STATUS_SUCCESS then x.(phase := AtDeposit) else EndFlow(x)
    case AtDeposit => EndFlow(x)
  }

  // ---------- the world ----------

  /** The client has made its first exchange. */
  predicate Opened(x: Client) {
    !x.phase.AtCreate? || x.flows > 0
  }

  /** ... and has not finished its rounds: its connection occupies a worker. */
  predicate InService(x: Client, rounds: nat) {
    Opened(x) && x.flows < rounds
  }

  /** The number of workers that are occupied. */
  function Busy(xs: seq<Client>, rounds: nat): (n: nat)
    ensures n <= |xs|
  {
    if xs == [] then 0
    else Busy(xs[..|xs| - 1], rounds) + if InService(xs[|xs| - 1], rounds) then 1 else 0
  }

  /** peak is the largest number of clients that have been in service at one time. */
  datatype World = World(sys: Sys, clients: seq<Client>, peak: nat)

  /** An exchange has left the servers at sys and client c at y. */
  function MoveOn(w: World, sys: Sys, c: nat, y: Client, rounds: nat): World
    requires c < |w.clients|
  {
    var busy := Busy(w.clients[c := y], rounds);
    World(sys, w.clients[c := y], if busy > w.peak then busy else w.peak)
  }

  /** perform_request: the packet goes out, the server answers it, the reply is unpacked. */
  function Perform(m: Platform, s: Sys, opcode: nat, payload: seq<byte>, t: Turn): (r: (Sys, seq<byte>))
    requires StructSize(opcode) == Some(|payload|)
    ensures |r.1| == RESPONSE_SIZE
  {
    RequestArrives(m, opcode, payload, t);
    var (after, response) := Answer(m, s, Sent(opcode, payload, t));
    RoundTrip(OP_RESPONSE, t.replyId, Encode(m, response), RESPONSE_SIZE);
    (after, Unpack(Reply(m, response, t.replyId), RESPONSE_SIZE).value)
  }

  /** What a client's request does to the servers, and the status and message it reads from the reply. */
  function Ask(m: Platform, s: Sys, x: Client, t: Turn): (Sys, int, seq<byte>) {
    var (sys, reply) := Perform(m, s, OpcodeFor(Meant(x)), StructFor(m, Meant(x)), t);
    (sys, StatusOf(reply), MessageOf(reply))
  }

  /** The exchange of the client whose turn it is, over the wire; nothing if it has finished. */
  function Advance(m: Platform, w: World, t: Turn, rounds: nat): World
    requires t.who < |w.clients|
  {
    var x := w.clients[t.who];
    if x.flows >= rounds then w
    else
      var (sys, status, message) := Ask(m, w.sys, x, t);
      MoveOn(w, sys, t.who, NextClient(x, status, message), rounds)
  }

  predicate Turns(turns: seq<Turn>, n: nat) {
    forall k :: 0 <= k < |turns| ==> GoodTurn(turns[k]) && turns[k].who < n
  }

  function Opening(ids: seq<Id>): World {
    World(Start(), seq(|ids|, c requires 0 <= c < |ids| => Client(ids[c], AtCreate, 0)), 0)
  }

  /** Any interleaving of the clients' exchanges. A server with n workers plays those with a peak of at
      most n: a worker serves one connection to its end before it accepts the next, and a client keeps
      one connection for all its rounds. */
  function Play(m: Platform, ids: seq<Id>, turns: seq<Turn>, rounds: nat): (w: World)
    requires Turns(turns, |ids|)
    ensures |w.clients| == |ids|
  {
    if turns == [] then Opening(ids)
    else Advance(m, Play(m, ids, turns[..|turns| - 1], rounds), turns[|turns| - 1], rounds)
  }

  lemma PlayOn(m: Platform, ids: seq<Id>, turns: seq<Turn>, k: nat, rounds: nat)
    requires Turns(turns, |ids|) && k < |turns|
    ensures Turns(turns[..k], |ids|) && Turns(turns[..k + 1], |ids|)
    ensures Play(m, ids, turns[..k + 1], rounds)
            == Advance(m, Play(m, ids, turns[..k], rounds), turns[k], rounds)
  {
    assert turns[..k + 1][..k] == turns[..k];
  }

  predicate GoodIds(ids: seq<Id>) {
    && (forall c :: 0 <= c < |ids| ==> 0 !in ids[c] && |ids[c]| < 20)
    && (forall c, d :: 0 <= c < d < |ids| ==> ids[c] != ids[d])
  }

  // ---------- the exchange without the wire ----------

  /** The platform writes and reads the two amounts of the test faithfully. */
  predicate ReadsAmounts(m: Platform) {
    ReadsBack(m, INITIAL) && ReadsBack(m, AMOUNT)
  }

  predicate GoodClient(x: Client) {
    FieldText(x.id, ID_SIZE - 1) && (x.phase.AtLogin? ==> FieldText(x.phase.code, 7))
  }

  predicate GoodClients(xs: seq<Client>) {
    forall c :: 0 <= c < |xs| ==> GoodClient(xs[c])
  }

  /** The servers' answer to what the client means. */
  function Heard(rnd: Rounding, s: Sys, x: Client, t: Turn): (Sys, Response) {
    Dispatch(rnd, s, Meant(x), t.env)
  }

  function Meet(rnd: Rounding, w: World, t: Turn, rounds: nat): World
    requires t.who < |w.clients|
  {
    var x := w.clients[t.who];
    if x.flows >= rounds then w
    else
      var (sys, response) := Heard(rnd, w.sys, x, t);
      MoveOn(w, sys, t.who, NextClient(x, response.status, response.message), rounds)
  }

  /** The interleaving, with the requests and responses as values. */
  function Tale(rnd: Rounding, ids: seq<Id>, turns: seq<Turn>, rounds: nat): (w: World)
    requires Turns(turns, |ids|)
    ensures |w.clients| == |ids|
  {
    if turns == [] then Opening(ids)
    else Meet(rnd, Tale(rnd, ids, turns[..|turns| - 1], rounds), turns[|turns| - 1], rounds)
  }

  /** The client finds in the message exactly the code that the server put there. */
  lemma CodeExtracted(draw: nat)
    ensures var message := OTP_PREFIX + Code(draw);
            Colon(message, 0) >= 0 && Extract(message) == Code(draw) && |Code(draw)| == 6 && 0 !in Code(draw)
  {
    CodeHasSixDigits(draw);
    var message := OTP_PREFIX + Code(draw);
    assert ColonAt(message, 13);
    assert message[..13] == OTP_PREFIX[..13] && 58 !in OTP_PREFIX[..13];
    assert forall i :: 0 <= i < 13 ==> message[i] == message[..13][i];
    assert Colon(message, 0) == 13;
    assert message[15..] == Code(draw);
  }

  /** Packing, checking, unpacking and parsing change nothing about a request and its answer. */
  lemma WireIsTransparent(m: Platform, s: Sys, x: Client, t: Turn)
    requires GoodTurn(t) && GoodClient(x) && ReadsAmounts(m)
    ensures var (sys, response) := Heard(m.rnd, s, x, t);
            Ask(m, s, x, t) == (sys, response.status, response.message)
  {
    RequestRoundTrip(m, Meant(x));
    RequestArrives(m, OpcodeFor(Meant(x)), StructFor(m, Meant(x)), t);
    ReplyArrives(m, s, Meant(x), t);
  }

  lemma NextIsGood(rnd: Rounding, s: Sys, x: Client, t: Turn)
    requires GoodClient(x)
    ensures var response := Heard(rnd, s, x, t).1;
            var y := NextClient(x, response.status, response.message);
            y.id == x.id && GoodClient(y)
  {
    if x.phase.AtOtp? {
      CodeExtracted(t.env.draw);
    }
  }

  lemma AdvanceIsMeet(m: Platform, w: World, t: Turn, rounds: nat)
    requires GoodTurn(t) && t.who < |w.clients| && GoodClients(w.clients) && ReadsAmounts(m)
    ensures Advance(m, w, t, rounds) == Meet(m.rnd, w, t, rounds)
    ensures GoodClients(Meet(m.rnd, w, t, rounds).clients)
  {
    WireIsTransparent(m, w.sys, w.clients[t.who], t);
    NextIsGood(m.rnd, w.sys, w.clients[t.who], t);
  }

  /** Whole runs over the wire are runs of the requests and responses. */
  lemma {:induction false} PlayIsTale(m: Platform, ids: seq<Id>, turns: seq<Turn>, rounds: nat)
    requires GoodIds(ids) && Turns(turns, |ids|) && ReadsAmounts(m)
    ensures Play(m, ids, turns, rounds) == Tale(m.rnd, ids, turns, rounds)
    ensures GoodClients(Tale(m.rnd, ids, turns, rounds).clients)
  {
    if turns != [] {
      var init, t := turns[..|turns| - 1], turns[|turns| - 1];
      PlayIsTale(m, ids, init, rounds);
      AdvanceIsMeet(m, Tale(m.rnd, ids, init, rounds), t, rounds);
    }
  }

  // ---------- what a client does only after a success ----------

  /** y logs in or deposits because of what x read: a login uses the text after the first ": " of a
      message of success, at most 8 characters; a deposit follows an accepted login. */
  ghost predicate Because(x: Client, status: int, message: seq<byte>, y: Client) {
    match y.phase
    case AtLogin(code) =>
      && x.phase.AtOtp? && status == 0
      && exists i :: ColonAt(message, i) && (forall j :: 0 <= j < i ==> !ColonAt(message, j))
                     && code == if |message| - i - 2 <= 8 then message[i + 2..] else message[i + 2..i + 10]
    case AtDeposit => x.phase.AtLogin? && status == 0
    case _ => true
  }

  lemma NextBecause(x: Client, status: int, message: seq<byte>)
    ensures Because(x, status, message, NextClient(x, status, message))
  {
    var y := NextClient(x, status, message);
    if y.phase.AtLogin? {
      assert ColonAt(message, Colon(message, 0));
    }
  }

  /** Turn t in world w has led its client to y. */
  ghost predicate Leads(m: Platform, w: World, t: Turn, y: Client, rounds: nat) {
    && t.who < |w.clients| && w.clients[t.who].flows < rounds
    && var (_, status, message) := Ask(m, w.sys, w.clients[t.who], t);
       Because(w.clients[t.who], status, message, y)
  }

  lemma AdvanceLeads(m: Platform, w: World, t: Turn, rounds: nat)
    requires t.who < |w.clients| && w.clients[t.who].flows < rounds
    ensures var u := Advance(m, w, t, rounds); t.who < |u.clients| && Leads(m, w, t, u.clients[t.who], rounds)
  {
    var (_, status, message) := Ask(m, w.sys, w.clients[t.who], t);
    NextBecause(w.clients[t.who], status, message);
  }

  lemma OthersWait(m: Platform, w: World, t: Turn, c: nat, rounds: nat)
    requires t.who < |w.clients| && c < |w.clients| && (t.who != c || w.clients[c].flows >= rounds)
    ensures |Advance(m, w, t, rounds).clients| == |w.clients| && Advance(m, w, t, rounds).clients[c] == w.clients[c]
  {
  }

  /** The last exchange of client c has led it to y. */
  ghost predicate LastLed(m: Platform, ids: seq<Id>, turns: seq<Turn>, c: nat, y: Client, rounds: nat)
    requires Turns(turns, |ids|) && c < |ids|
  {
    turns != []
    && var init, t := turns[..|turns| - 1], turns[|turns| - 1];
       var before := Play(m, ids, init, rounds);
       if t.who == c && before.clients[c].flows < rounds then Leads(m, before, t, y, rounds)
       else LastLed(m, ids, init, c, y, rounds)
  }

  /** In every interleaving a client is about to log in only since its last exchange gave it a code, and
      about to deposit only since its last exchange was an accepted login. */
  lemma {:induction false} OnlyAfterSuccess(m: Platform, ids: seq<Id>, turns: seq<Turn>, c: nat, rounds: nat)
    requires Turns(turns, |ids|) && c < |ids|
    ensures var x := Play(m, ids, turns, rounds).clients[c];
            x.phase.AtLogin? || x.phase.AtDeposit? ==> LastLed(m, ids, turns, c, x, rounds)
  {
    if turns != [] {
      OnlyAfterSuccess(m, ids, turns[..|turns| - 1], c, rounds);
      LastExchange(m, ids, turns, c, rounds);
    }
  }

  lemma LastExchange(m: Platform, ids: seq<Id>, turns: seq<Turn>, c: nat, rounds: nat)
    requires Turns(turns, |ids|) && c < |ids| && turns != []
    ensures var n := |turns| - 1;
            var before, x := Play(m, ids, turns[..n], rounds), Play(m, ids, turns, rounds).clients[c];
            if turns[n].who == c && before.clients[c].flows < rounds then Leads(m, before, turns[n], x, rounds)
            else x == before.clients[c]
  {
    var n := |turns| - 1;
    var before := Play(m, ids, turns[..n], rounds);
    if turns[n].who == c && before.clients[c].flows < rounds {
      AdvanceLeads(m, before, turns[n], rounds);
    } else {
      OthersWait(m, before, turns[n], c, rounds);
    }
  }
}
