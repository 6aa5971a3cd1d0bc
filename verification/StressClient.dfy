/** One thread of stress_test/stress_client.c as a program against one server. */
module StressClient {
  import opened Options
  import opened Crypto
  import opened Protocol
  import opened Accounts
  import opened AccountRuns
  import opened Server
  import opened Stress
  import opened StressPasswords
  import opened StressBank

  /** The packing half of perform_request. */
  method PackRequest(opcode: nat, payload: seq<byte>, t: Turn) returns (a: Arrival)
    requires StructSize(opcode) == Some(|payload|)
    ensures a == Sent(opcode, payload, t)
  {
    var data := new byte[|payload|](i requires 0 <= i < |payload| => payload[i]);
    assert data[..] == payload;
    var packet := new BankingPacket();
    var packed := packet.PackRequest(opcode, t.requestId, data, |payload|);
    assert data[..|payload|] == payload && packet.Image() == packet.bytes[..];
    a := Arrival(packet.bytes[..], t.beyond, t.stack, t.env, t.replyId);
  }

  /** The unpacking half. */
  method UnpackResponse(wire: Wire, beyond: seq<byte>) returns (result: Option<int>, response: seq<byte>)
    ensures result == match Received(wire, beyond, RESPONSE_SIZE)
                      case None => None
                      case Some(d) => Some(if d.Some? then 0 else -1)
    ensures |response| == RESPONSE_SIZE
    ensures match Received(wire, beyond, RESPONSE_SIZE)
            case Some(Some(d)) => |d| == RESPONSE_SIZE ==> response == d
            case _ => true
  {
    var packet := new BankingPacket();
    packet.Put(0, wire);
    assert packet.Image() == wire;
    var buffer := new byte[RESPONSE_SIZE](i => 0);
    result := packet.UnpackRequest(buffer, RESPONSE_SIZE, beyond);
    response := buffer[..];
  }

  lemma PerformSteps(m: Platform, s: Sys, opcode: nat, payload: seq<byte>, t: Turn, beyond: seq<byte>)
    requires StructSize(opcode) == Some(|payload|)
    ensures var a := Sent(opcode, payload, t);
            Readable(a)
            && var wire := Reply(m, Answer(m, s, a).1, t.replyId);
               Received(wire, beyond, RESPONSE_SIZE)
               == Some(Some(Perform(m, s, opcode, payload, t).1))
               && Perform(m, s, opcode, payload, t).0 == Answer(m, s, a).0
  {
    RequestArrives(m, opcode, payload, t);
    var response := Answer(m, s, Sent(opcode, payload, t)).1;
    RoundTrip(OP_RESPONSE, t.replyId, Encode(m, response), RESPONSE_SIZE);
    ReceivedExactly(Reply(m, response, t.replyId), beyond, RESPONSE_SIZE);
  }

  /** perform_request: pack, send, receive, unpack; whatever memory lies behind the client's packet. */
  method PerformRequest(server: Worker, m: Platform, opcode: nat, payload: seq<byte>, t: Turn, beyond: seq<byte>)
    returns (result: int, reply: seq<byte>)
    requires server.Valid() && StructSize(opcode) == Some(|payload|)
    modifies server.db, server.db.accounts, server.otp.db
    ensures server.Valid() && (server.State(), reply) == Perform(m, old(server.State()), opcode, payload, t)
    ensures result == 0
  {
    PerformSteps(m, server.State(), opcode, payload, t, beyond);
    var a := PackRequest(opcode, payload, t);
    var wire := server.Respond(m, a);
    var unpacked;
    unpacked, reply := UnpackResponse(wire.value, beyond);
    result := unpacked.value;
  }

  /** The game of this one client stands at x, after the first `used` turns. */
  ghost predicate Stands(server: Worker, m: Platform, x: Client, turns: seq<Turn>, used: nat, rounds: nat)
    reads server, server.db, server.db.accounts, server.otp.db
  {
    && server.Valid() && used <= |turns| && Turns(turns[..used], 1)
    && At(m, server.State(), x, turns[..used], rounds)
  }

  /** The single-client game has led to s and x. */
  predicate At(m: Platform, s: Sys, x: Client, turns: seq<Turn>, rounds: nat)
    requires Turns(turns, 1)
  {
    Play(m, [x.id], turns, rounds).sys == s && Play(m, [x.id], turns, rounds).clients == [x]
  }

  lemma PlayAsk(m: Platform, s: Sys, x: Client, turns: seq<Turn>, used: nat, rounds: nat)
    requires Turns(turns, 1) && used < |turns| && x.flows < rounds
    requires Turns(turns[..used], 1) && At(m, s, x, turns[..used], rounds)
    ensures Turns(turns[..used + 1], 1)
    ensures var (after, status, message) := Ask(m, s, x, turns[used]);
            At(m, after, NextClient(x, status, message), turns[..used + 1], rounds)
  {
    PlayOn(m, [x.id], turns, used, rounds);
    AdvanceAlone(m, Play(m, [x.id], turns[..used], rounds), x, turns[used], rounds);
  }

  lemma AdvanceAlone(m: Platform, w: World, x: Client, t: Turn, rounds: nat)
    requires t.who == 0 && x.flows < rounds && w.clients == [x]
    ensures var (after, status, message) := Ask(m, w.sys, x, t);
            var u := Advance(m, w, t, rounds);
            var y := NextClient(x, status, message);
            u.sys == after && u.clients == [y] && y.id == x.id
  {
    var (after, status, message) := Ask(m, w.sys, x, t);
    MoveAlone(w, after, x, NextClient(x, status, message), rounds);
  }

  lemma MoveAlone(w: World, sys: Sys, x: Client, y: Client, rounds: nat)
    requires w.clients == [x]
    ensures MoveOn(w, sys, 0, y, rounds).sys == sys && MoveOn(w, sys, 0, y, rounds).clients == [y]
  {
  }

  /** The client got a reply and went on from x to y. */
  predicate Follows(x: Client, y: Client) {
    && y.id == x.id
    && match x.phase
       case AtCreate => y == x.(phase := AtOtp)
       case AtOtp => y == EndFlow(x) || (y.phase.AtLogin? && y.flows == x.flows)
       case AtLogin(_) => y == EndFlow(x) || y == x.(phase := AtDeposit)
       case AtDeposit => y == EndFlow(x)
  }

  /** One request of the client, and what it makes of the reply. */
  method Request(server: Worker, m: Platform, x: Client, turns: seq<Turn>, used: nat, rounds: nat)
    returns (y: Client)
    requires Turns(turns, 1) && used < |turns| && x.flows < rounds && Stands(server, m, x, turns, used, rounds)
    modifies server.db, server.db.accounts, server.otp.db
    ensures Stands(server, m, y, turns, used + 1, rounds)
    ensures Follows(x, y)
  {
    PlayAsk(m, server.State(), x, turns, used, rounds);
    var _, reply := PerformRequest(server, m, OpcodeFor(Meant(x)), StructFor(m, Meant(x)), turns[used], []);
    y := NextClient(x, StatusOf(reply), MessageOf(reply));
  }

  /** The first half of a round: create the account, request a password. */
  method OpenAndRequest(server: Worker, m: Platform, start: Client, turns: seq<Turn>, from: nat, rounds: nat)
    returns (x: Client)
    requires start.phase == AtCreate && start.flows < rounds
    requires Turns(turns, 1) && from + 2 <= |turns| && Stands(server, m, start, turns, from, rounds)
    modifies server.db, server.db.accounts, server.otp.db
    ensures Stands(server, m, x, turns, from + 2, rounds) && Follows(start.(phase := AtOtp), x)
  {
    x := Request(server, m, start, turns, from, rounds);
    x := Request(server, m, x, turns, from + 1, rounds);
  }

  /** The second half: log in and, if that succeeds, deposit. */
  method LoginAndDeposit(server: Worker, m: Platform, start: Client, turns: seq<Turn>, from: nat, rounds: nat)
    returns (x: Client, used: nat)
    requires start.phase.AtLogin? && start.flows < rounds
    requires Turns(turns, 1) && from + 2 <= |turns| && Stands(server, m, start, turns, from, rounds)
    modifies server.db, server.db.accounts, server.otp.db
    ensures Stands(server, m, x, turns, used, rounds) && from <= used <= from + 2 && x == EndFlow(start)
  {
    x := Request(server, m, start, turns, from, rounds);
    used := from + 1;
    if x.phase.AtDeposit? {
      x := MakeDeposit(server, m, x, turns, used, rounds);
      used := from + 2;
    }
  }

  method MakeDeposit(server: Worker, m: Platform, start: Client, turns: seq<Turn>, from: nat, rounds: nat)
    returns (x: Client)
    requires start.phase.AtDeposit? && start.flows < rounds
    requires Turns(turns, 1) && from < |turns| && Stands(server, m, start, turns, from, rounds)
    modifies server.db, server.db.accounts, server.otp.db
    ensures Stands(server, m, x, turns, from + 1, rounds) && x == EndFlow(start)
  {
    x := Request(server, m, start, turns, from, rounds);
  }

  /** One round of the operations loop. */
  method Flow(server: Worker, m: Platform, start: Client, turns: seq<Turn>, from: nat, rounds: nat)
    returns (x: Client, used: nat)
    requires start.phase == AtCreate && start.flows < rounds
    requires Turns(turns, 1) && from + 4 <= |turns| && Stands(server, m, start, turns, from, rounds)
    modifies server.db, server.db.accounts, server.otp.db
    ensures Stands(server, m, x, turns, used, rounds)
    ensures from <= used <= from + 4 && x == EndFlow(start)
  {
    x := OpenAndRequest(server, m, start, turns, from, rounds);
    used := from + 2;
    if x.phase.AtLogin? {
      x, used := LoginAndDeposit(server, m, x, turns, used, rounds);
    }
  }

  /** The operations loop of worker_thread, four turns at most for each round. It plays exactly the
      single-client game, and with a faithful platform it leaves 1000 plus 100 for every round. */
  method WorkerThread(server: Worker, m: Platform, id: Id, rounds: nat, turns: seq<Turn>)
    returns (successCount: nat, used: nat)
    requires server.Valid() && server.State() == Start()
    requires Turns(turns, 1) && |turns| >= 4 * rounds
    modifies server.db, server.db.accounts, server.otp.db
    ensures successCount == rounds && used <= 4 * rounds
    ensures Stands(server, m, Client(id, AtCreate, rounds), turns, used, rounds)
    ensures GoodIds([id]) && ReadsAmounts(m) && ExactSums(m.rnd, rounds) && rounds > 0 ==>
              var b := MapOf(server.State().table);
              id in b && b[id] == 1000.0 + 100.0 * rounds as real
  {
    var x := Client(id, AtCreate, 0);
    used, successCount := 0, 0;
    assert Opening([id]).clients == [x];
    while successCount < rounds
      invariant successCount <= rounds && used <= 4 * successCount
      invariant x == Client(id, AtCreate, successCount) && Stands(server, m, x, turns, used, rounds)
    {
      x, used := Flow(server, m, x, turns, used, rounds);
      successCount := successCount + 1;
    }
    if GoodIds([id]) && ReadsAmounts(m) && ExactSums(m.rnd, rounds) {
      StressTest(m, [id], turns[..used], PlainTurn(0), rounds);
    }
  }
}
