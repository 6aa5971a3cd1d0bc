/** The whole server: any number of workers, each with its packet loop, over the shared account
    database and the one-time-password server. It answers as one packet loop would. */
module Service {
  import opened Options
  import opened Protocol
  import opened Accounts
  import opened AccountRuns
  import opened Otp
  import opened Server
  import OtpRuns
  import M = Machine
  import L = Linearizability

  /** Where a worker is in its packet loop. */
  datatype Desk =
    | Waiting                                                 // for a connection or a packet
    | Banking(a: Arrival, op: Op, since: nat)                 // inside the call of the account database
    | Asking(a: Arrival, request: Request, since: nat)        // about to call the password server
    | Answering(a: Arrival, response: Response, place: nat)   // about to send the reply
    | Dead                                                    // after a fault

  datatype Answer = Answer(at: nat, wire: Wire)

  /** The history of one packet: read, took its place in the log, answered. */
  datatype Note = Note(who: nat, arrivedAt: nat, placedAt: nat, answer: Option<Answer>)

  /** log has the packets in the order of their places, notes a note for each; places has the place of
      every operation in the order of the bank; read has the packets that each worker has read (and
      survived). read, log, notes, places and now are history. */
  datatype Office = Office(
    bank: M.State, otps: seq<Entry>, desks: seq<Desk>,
    read: seq<seq<Arrival>>, log: seq<Arrival>, notes: seq<Note>, places: seq<nat>, now: nat)

  function Opening(workers: nat): Office {
    Office(M.Init(seq(workers, w => [])), OtpRuns.Blank(), seq(workers, w => Waiting),
           seq(workers, w => []), [], [], [], 0)
  }

  // ---------- one step ----------

  datatype Event =
    | Receive(w: nat, a: Arrival)   // worker w reads from its connection
    | Work(w: nat)                  // ... steps in its call of the account database
    | Ask(w: nat)                   // ... has the password server handle its request
    | Reply(w: nat)                 // ... sends the reply

  predicate Shaped(o: Office) {
    && M.Typed(o.bank) && |o.desks| == |o.bank.workers| == |o.read|
    && |o.notes| == |o.log| && |o.places| == |o.bank.order|
    && (forall j :: 0 <= j < |o.places| ==> o.places[j] < |o.log|)
    && (forall w :: 0 <= w < |o.desks| && o.desks[w].Answering? ==> o.desks[w].place < |o.log|)
  }

  /** Worker w is handed a bank operation. */
  function Push(s: M.State, w: nat, op: Op): M.State
    requires w < |s.workers|
  {
    s.(workers := s.workers[w := s.workers[w].(todo := [op])])
  }

  /** The packet of worker w takes its place. */
  function Placed(o: Office, w: nat, a: Arrival, since: nat): Office {
    o.(log := o.log + [a], notes := o.notes + [Note(w, since, o.now, None)])
  }

  function Received(m: Platform, o: Office, w: nat, a: Arrival): Office
    requires Shaped(o) && w < |o.desks|
  {
    if !FullSize(a) then o                                          // the connection ends
    else if !Readable(a) then o.(desks := o.desks[w := Dead])
    else
      var u := o.(read := o.read[w := o.read[w] + [a]]);
      match Decode(m, a)
      case Bank(op) => u.(bank := Push(o.bank, w, op), desks := o.desks[w := Banking(a, op, o.now)])
      case Invalid =>
        var response := Dispatch(m.rnd, Sys([], []), Invalid, a.env).1;
        Placed(u, w, a, o.now).(desks := o.desks[w := Answering(a, response, |o.log|)])
      case request => u.(desks := o.desks[w := Asking(a, request, o.now)])
  }

  function Worked(m: Platform, o: Office, w: nat): Office
    requires Shaped(o) && w < |o.desks| && o.desks[w].Banking?
  {
    var d, x := o.desks[w], o.bank.workers[w];
    var u := o.(bank := M.Step(m.rnd, o.bank, w));
    if !M.Enabled(o.bank, w) then o
    else if M.TakesPlace(x) then Placed(u, w, d.a, d.since).(places := o.places + [|o.log|])
    else if x.pc.Returning? then
      u.(desks := o.desks[w := Answering(d.a, BankResponse(d.op, x.pc.outcome, d.a.env), o.places[x.ticket])])
    else u
  }

  function Asked(m: Platform, o: Office, w: nat): Office
    requires w < |o.desks| && o.desks[w].Asking?
  {
    var d := o.desks[w];
    var (sys, response) := Dispatch(m.rnd, Sys([], o.otps), d.request, d.a.env);
    Placed(o, w, d.a, d.since).(otps := sys.otps, desks := o.desks[w := Answering(d.a, response, |o.log|)])
  }

  function Answered(m: Platform, o: Office, w: nat): Office
    requires Shaped(o) && w < |o.desks| && o.desks[w].Answering?
  {
    var d := o.desks[w];
    var answer := Answer(o.now, Server.Reply(m, d.response, d.a.reqId));
    o.(notes := o.notes[d.place := o.notes[d.place].(answer := Some(answer))], desks := o.desks[w := Waiting])
  }

  /** A worker that is elsewhere in its loop leaves the office as it is. */
  function Act(m: Platform, o: Office, e: Event): Office
    requires Shaped(o) && e.w < |o.desks|
  {
    match e
    case Receive(w, a) => if o.desks[w].Waiting? then Received(m, o, w, a) else o
    case Work(w) => if o.desks[w].Banking? then Worked(m, o, w) else o
    case Ask(w) => if o.desks[w].Asking? then Asked(m, o, w) else o
    case Reply(w) => if o.desks[w].Answering? then Answered(m, o, w) else o
  }

  function Next(m: Platform, o: Office, e: Event): Office
    requires Shaped(o) && e.w < |o.desks|
  {
    Act(m, o, e).(now := o.now + 1)
  }

  // ---------- what every step keeps ----------

  predicate Resting(x: M.Worker) {
    x.pc.Idle? && x.todo == []
  }

  /** The place of worker w's packet, -1 if it has none (yet). */
  function PlaceOf(o: Office, w: nat): int
    requires Shaped(o) && w < |o.desks|
  {
    match o.desks[w]
    case Answering(_, _, place) => place
    case Banking(_, _, _) =>
      assert M.TypedWorker(o.bank, o.bank.workers[w]);
      if M.Ticketed(o.bank.workers[w].pc) then o.places[o.bank.workers[w].ticket] else -1
    case _ => -1
  }

  /** The worker's call of the account database is the one that its packet asks for. */
  predicate DeskOk(m: Platform, o: Office, w: nat)
    requires Shaped(o) && w < |o.desks| && AllReadable(o.log)
  {
    var d, x := o.desks[w], o.bank.workers[w];
    && (PlaceOf(o, w) >= 0 ==> o.log[PlaceOf(o, w)] == d.a && o.notes[PlaceOf(o, w)].who == w
                               && o.notes[PlaceOf(o, w)].answer == None)
    && match d
       case Banking(a, op, since) =>
         && Readable(a) && Decode(m, a) == Bank(op) && since < o.now
         && (if x.pc.Idle? then x.todo == [op] else x.todo == [] && x.op == op)
       case Asking(a, request, since) =>
         && Readable(a) && Decode(m, a) == request && (request.NewOtp? || request.CheckOtp?) && since < o.now
         && Resting(x)
       case Answering(a, response, place) => response == ResponseAt(m, Start(), o.log, place) && Resting(x)
       case _ => Resting(x)
  }

  /** The packet at place p asks for the j-th operation of the bank, and finds the table as that does. */
  predicate PlaceOk(m: Platform, log: seq<Arrival>, order: seq<Op>, p: nat, j: nat)
    requires AllReadable(log)
  {
    && p < |log| && j < |order| && Decode(m, log[p]) == Bank(order[j])
    && StateAfter(m, Start(), log[..p]).table == Run(m.rnd, order[..j])
  }

  predicate PlacesOk(m: Platform, log: seq<Arrival>, order: seq<Op>, places: seq<nat>)
    requires AllReadable(log)
  {
    forall j :: 0 <= j < |places| ==> PlaceOk(m, log, order, places[j], j)
  }

  /** A packet takes its place between its arrival and its answer, and the answer is that of the one
      packet loop; without an answer it is still with its worker. */
  predicate NoteOk(m: Platform, o: Office, k: nat)
    requires Shaped(o) && k < |o.notes| && AllReadable(o.log)
  {
    var n := o.notes[k];
    && n.who < |o.desks| && n.arrivedAt <= n.placedAt < o.now
    && match n.answer
       case Some(answer) => n.placedAt < answer.at < o.now && answer.wire == ReplyAt(m, Start(), o.log, k)
       case None => PlaceOf(o, n.who) == k
  }

  predicate InOrder(notes: seq<Note>) {
    forall j, k :: 0 <= j < k < |notes| ==> notes[j].placedAt < notes[k].placedAt
  }

  predicate DesksOk(m: Platform, o: Office)
    requires Shaped(o) && AllReadable(o.log)
  {
    forall w :: 0 <= w < |o.desks| ==> DeskOk(m, o, w)
  }

  predicate NotesOk(m: Platform, o: Office)
    requires Shaped(o) && AllReadable(o.log)
  {
    InOrder(o.notes) && forall k :: 0 <= k < |o.notes| ==> NoteOk(m, o, k)
  }

  /** Both servers are where one packet loop would be after the packets of the log. */
  predicate StateOk(m: Platform, o: Office)
    requires AllReadable(o.log)
  {
    StateAfter(m, Start(), o.log) == Sys(Run(m.rnd, o.bank.order), o.otps)
  }

  predicate Inv(m: Platform, o: Office) {
    && M.Coherent(o.bank) && L.Agrees(m.rnd, o.bank) && Shaped(o) && AllReadable(o.log)
    && StateOk(m, o) && DesksOk(m, o) && NotesOk(m, o) && PlacesOk(m, o.log, o.bank.order, o.places)
  }

  // ---------- the log grows ----------

  lemma LogGrows(m: Platform, log: seq<Arrival>, a: Arrival)
    requires AllReadable(log) && Readable(a)
    ensures AllReadable(log + [a])
    ensures StateAfter(m, Start(), log + [a]) == Server.Answer(m, StateAfter(m, Start(), log), a).0
    ensures ResponseAt(m, Start(), log + [a], |log|) == Server.Answer(m, StateAfter(m, Start(), log), a).1
  {
    assert (log + [a])[..|log|] == log;
  }

  /** Later packets change nothing about an earlier place. */
  lemma EarlierPlace(m: Platform, log: seq<Arrival>, longer: seq<Arrival>, k: nat)
    requires AllReadable(longer) && log <= longer && k < |log|
    ensures AllReadable(log) && longer[k] == log[k] && longer[..k] == log[..k]
    ensures ResponseAt(m, Start(), longer, k) == ResponseAt(m, Start(), log, k)
    ensures ReplyAt(m, Start(), longer, k) == ReplyAt(m, Start(), log, k)
  {
    assert longer[..|log|] == log;
    assert longer[..k] == log[..k];
  }

  // ---------- what a step leaves alone ----------

  /** Only worker w has moved from o to u. */
  predicate Moves(o: Office, u: Office, w: nat) {
    && Shaped(o) && Shaped(u) && w < |o.desks| == |u.desks| && o.now <= u.now
    && (forall v :: 0 <= v < |o.desks| && v != w ==>
          u.desks[v] == o.desks[v] && u.bank.workers[v] == o.bank.workers[v])
    && o.log <= u.log && o.places <= u.places && o.bank.order <= u.bank.order
    && |u.places| <= |o.places| + 1 && |o.notes| <= |u.notes| <= |o.notes| + 1
    && (forall k :: 0 <= k < |o.notes| ==> u.notes[k].placedAt == o.notes[k].placedAt)
    && (forall k :: 0 <= k < |o.notes| && k != PlaceOf(o, w) ==> u.notes[k] == o.notes[k])
  }

  lemma OtherDesk(m: Platform, o: Office, u: Office, w: nat, v: nat)
    requires Moves(o, u, w) && AllReadable(u.log) && v < |o.desks| && v != w
    requires AllReadable(o.log) && DeskOk(m, o, v) && DeskOk(m, o, w)
    ensures DeskOk(m, u, v) && PlaceOf(u, v) == PlaceOf(o, v)
  {
    assert M.TypedWorker(o.bank, o.bank.workers[v]);
    var p := PlaceOf(o, v);
    assert PlaceOf(u, v) == p;
    if p >= 0 {
      EarlierPlace(m, o.log, u.log, p);
    }
  }

  lemma SamePlace(m: Platform, log: seq<Arrival>, longer: seq<Arrival>, order: seq<Op>, later: seq<Op>, p: nat, j: nat)
    requires AllReadable(longer) && log <= longer && order <= later
    requires AllReadable(log) && PlaceOk(m, log, order, p, j)
    ensures PlaceOk(m, longer, later, p, j)
  {
    EarlierPlace(m, log, longer, p);
    assert later[..j] == order[..j];
  }

  lemma OtherNote(m: Platform, o: Office, u: Office, w: nat, k: nat)
    requires Moves(o, u, w) && AllReadable(u.log) && k < |o.notes| && k != PlaceOf(o, w)
    requires AllReadable(o.log) && NoteOk(m, o, k) && DesksOk(m, o)
    ensures NoteOk(m, u, k)
  {
    EarlierPlace(m, o.log, u.log, k);
    var n := o.notes[k];
    if n.answer == None && n.who != w {
      OtherDesk(m, o, u, w, n.who);
    }
  }

  lemma DesksKeep(m: Platform, o: Office, u: Office, w: nat)
    requires Moves(o, u, w) && AllReadable(o.log) && AllReadable(u.log) && DesksOk(m, o) && DeskOk(m, u, w)
    ensures DesksOk(m, u)
  {
    forall v | 0 <= v < |u.desks|
      ensures DeskOk(m, u, v)
    {
      if v != w {
        OtherDesk(m, o, u, w, v);
      }
    }
  }

  lemma PlacesKeep(m: Platform, log: seq<Arrival>, longer: seq<Arrival>, order: seq<Op>, later: seq<Op>,
                   places: seq<nat>, more: seq<nat>)
    requires AllReadable(longer) && log <= longer && order <= later && places <= more && |more| <= |places| + 1
    requires AllReadable(log) && PlacesOk(m, log, order, places)
    requires |more| > |places| ==> PlaceOk(m, longer, later, more[|places|], |places|)
    ensures PlacesOk(m, longer, later, more)
  {
    forall j | 0 <= j < |places|
      ensures PlaceOk(m, longer, later, more[j], j)
    {
      SamePlace(m, log, longer, order, later, places[j], j);
    }
  }

  lemma NotesKeep(m: Platform, o: Office, u: Office, w: nat)
    requires Moves(o, u, w) && AllReadable(o.log) && AllReadable(u.log) && DesksOk(m, o) && NotesOk(m, o)
    requires |u.notes| > |o.notes| ==> NoteOk(m, u, |o.notes|) && u.notes[|o.notes|].placedAt == o.now
    requires PlaceOf(o, w) >= 0 ==> NoteOk(m, u, PlaceOf(o, w))
    ensures NotesOk(m, u)
  {
    forall k | 0 <= k < |o.notes|
      ensures NoteOk(m, u, k) && o.notes[k].placedAt < o.now
    {
      assert NoteOk(m, o, k);
      if k != PlaceOf(o, w) {
        OtherNote(m, o, u, w, k);
      }
    }
  }

  /** The invariant of the office, from what the step of worker w must show. */
  lemma StepKeeps(m: Platform, o: Office, u: Office, w: nat)
    requires Inv(m, o) && Moves(o, u, w) && M.Coherent(u.bank) && L.Agrees(m.rnd, u.bank)
    requires AllReadable(u.log) && StateOk(m, u) && DeskOk(m, u, w)
    requires var j := |o.places|; |u.places| > j ==> PlaceOk(m, u.log, u.bank.order, u.places[j], j)
    requires |u.notes| > |o.notes| ==> NoteOk(m, u, |o.notes|) && u.notes[|o.notes|].placedAt == o.now
    requires PlaceOf(o, w) >= 0 ==> NoteOk(m, u, PlaceOf(o, w))
    ensures Inv(m, u)
  {
    DesksKeep(m, o, u, w);
    PlacesKeep(m, o.log, u.log, o.bank.order, u.bank.order, o.places, u.places);
    NotesKeep(m, o, u, w);
  }

  // ---------- handing the bank an operation ----------

  lemma PushCoherent(s: M.State, w: nat, op: Op)
    requires M.Coherent(s) && w < |s.workers| && s.workers[w].pc.Idle?
    ensures M.Coherent(Push(s, w, op))
  {
    var u := Push(s, w, op);
    forall v | 0 <= v < |u.workers|
      ensures M.TypedWorker(u, u.workers[v])
    {
      assert M.TypedWorker(s, s.workers[v]);
    }
    forall v | 0 <= v < |u.workers|
      ensures M.Local(u, u.workers[v])
    {
      assert M.Local(s, s.workers[v]);
    }
  }

  lemma PushAhead(rnd: Rounding, s: M.State, w: nat, op: Op)
    requires M.Coherent(s) && w < |s.workers| && s.workers[w].pc.Idle? && M.Coherent(Push(s, w, op))
    ensures L.Ahead(rnd, Push(s, w, op)) == L.Ahead(rnd, s)
    ensures L.Abstract(rnd, Push(s, w, op)) == L.Abstract(rnd, s)
  {
    var u := Push(s, w, op);
    forall i | 0 <= i < s.count
      ensures L.Settled(rnd, u, i) == L.Settled(rnd, s, i)
    {
      assert M.Held(s.workers[w].pc) == -1;
      if s.owners[i].Some? {
        assert M.Held(s.workers[s.owners[i].value].pc) == i;
      }
    }
  }

  lemma PushAgrees(rnd: Rounding, s: M.State, w: nat, op: Op)
    requires M.Coherent(s) && L.Agrees(rnd, s) && w < |s.workers| && s.workers[w].pc.Idle?
    requires M.Coherent(Push(s, w, op))
    ensures L.Agrees(rnd, Push(s, w, op))
  {
    var u := Push(s, w, op);
    PushAhead(rnd, s, w, op);
    forall v | 0 <= v < |u.workers|
      ensures M.TypedWorker(u, u.workers[v]) && L.AgreesAt(rnd, u, u.workers[v])
    {
      assert M.TypedWorker(u, u.workers[v]) && L.AgreesAt(rnd, s, s.workers[v]);
    }
  }

  // ---------- every step keeps the invariant ----------

  /** A step without a place. */
  lemma DeskMoves(m: Platform, o: Office, u: Office, w: nat)
    requires Inv(m, o) && Moves(o, u, w) && M.Coherent(u.bank) && L.Agrees(m.rnd, u.bank)
    requires PlaceOf(o, w) == -1 && u.bank.order == o.bank.order
    requires u == o.(bank := u.bank, desks := u.desks, read := u.read, now := u.now) && DeskOk(m, u, w)
    ensures Inv(m, u)
  {
    StepKeeps(m, o, u, w);
  }

  lemma ReceiveNothing(m: Platform, o: Office, w: nat, a: Arrival)
    requires Inv(m, o) && w < |o.desks| && o.desks[w].Waiting? && !Readable(a)
    ensures Inv(m, Next(m, o, Receive(w, a)))
  {
    assert DeskOk(m, o, w);
    DeskMoves(m, o, Next(m, o, Receive(w, a)), w);
  }

  lemma ReceiveBank(m: Platform, o: Office, w: nat, a: Arrival)
    requires Inv(m, o) && w < |o.desks| && o.desks[w].Waiting? && Readable(a) && Decode(m, a).Bank?
    ensures Inv(m, Next(m, o, Receive(w, a)))
  {
    assert DeskOk(m, o, w);
    PushCoherent(o.bank, w, Decode(m, a).op);
    PushAgrees(m.rnd, o.bank, w, Decode(m, a).op);
    DeskMoves(m, o, Next(m, o, Receive(w, a)), w);
  }

  lemma ReceiveOtp(m: Platform, o: Office, w: nat, a: Arrival)
    requires Inv(m, o) && w < |o.desks| && o.desks[w].Waiting? && Readable(a)
    requires Decode(m, a).NewOtp? || Decode(m, a).CheckOtp?
    ensures Inv(m, Next(m, o, Receive(w, a)))
  {
    assert DeskOk(m, o, w);
    DeskMoves(m, o, Next(m, o, Receive(w, a)), w);
  }

  /** A packet that is answered as soon as it takes its place. */
  lemma AnsweredAtOnce(m: Platform, o: Office, u: Office, w: nat, a: Arrival, since: nat, response: Response)
    requires Inv(m, o) && w < |o.desks| && PlaceOf(o, w) == -1 && Readable(a) && since <= o.now
    requires u == Placed(o, w, a, since).(
               otps := u.otps, desks := o.desks[w := Answering(a, response, |o.log|)], read := u.read,
               now := o.now + 1)
    requires |u.read| == |o.read|
    requires Resting(o.bank.workers[w])
    requires Server.Answer(m, Sys(Run(m.rnd, o.bank.order), o.otps), a)
             == (Sys(Run(m.rnd, o.bank.order), u.otps), response)
    ensures Inv(m, u)
  {
    LogGrows(m, o.log, a);
    StepKeeps(m, o, u, w);
  }

  lemma ReceiveInvalid(m: Platform, o: Office, w: nat, a: Arrival)
    requires Inv(m, o) && w < |o.desks| && o.desks[w].Waiting? && Readable(a) && Decode(m, a).Invalid?
    ensures Inv(m, Next(m, o, Receive(w, a)))
  {
    assert DeskOk(m, o, w);
    AnsweredAtOnce(m, o, Next(m, o, Receive(w, a)), w, a, o.now, Dispatch(m.rnd, Sys([], []), Invalid, a.env).1);
  }

  lemma AskKeeps(m: Platform, o: Office, w: nat)
    requires Inv(m, o) && w < |o.desks| && o.desks[w].Asking?
    ensures Inv(m, Next(m, o, Ask(w)))
  {
    assert DeskOk(m, o, w);
    var d := o.desks[w];
    AnsweredAtOnce(m, o, Next(m, o, Ask(w)), w, d.a, d.since, Dispatch(m.rnd, Sys([], o.otps), d.request, d.a.env).1);
  }

  lemma ReplyNoted(m: Platform, o: Office, w: nat)
    requires Shaped(o) && AllReadable(o.log) && w < |o.desks| && o.desks[w].Answering?
    requires DeskOk(m, o, w) && NoteOk(m, o, o.desks[w].place)
    ensures var u := Next(m, o, Reply(w));
            Shaped(u) && u.log == o.log && NoteOk(m, u, o.desks[w].place) && DeskOk(m, u, w)
  {
  }

  lemma ReplyMoves(m: Platform, o: Office, w: nat)
    requires Shaped(o) && w < |o.desks| && o.desks[w].Answering?
    ensures var u := Next(m, o, Reply(w));
            && Moves(o, u, w) && |u.notes| == |o.notes| && PlaceOf(o, w) == o.desks[w].place
            && u == o.(notes := u.notes, desks := u.desks, now := u.now)
  {
  }

  lemma ReplyKeeps(m: Platform, o: Office, w: nat)
    requires Inv(m, o) && w < |o.desks| && o.desks[w].Answering?
    ensures Inv(m, Next(m, o, Reply(w)))
  {
    assert DeskOk(m, o, w) && NoteOk(m, o, o.desks[w].place);
    ReplyNoted(m, o, w);
    ReplyMoves(m, o, w);
    StepKeeps(m, o, Next(m, o, Reply(w)), w);
  }

  lemma BankMoves(rnd: Rounding, s: M.State, w: nat)
    requires M.Coherent(s) && w < |s.workers|
    ensures var u := M.Step(rnd, s, w);
            && |u.workers| == |s.workers| && s.order <= u.order
            && u.order == s.order + (if M.Enabled(s, w) && M.TakesPlace(s.workers[w]) then [s.workers[w].op] else [])
            && forall v :: 0 <= v < |s.workers| && v != w ==> u.workers[v] == s.workers[v]
  {
    assert M.TypedWorker(s, s.workers[w]);
  }

  lemma WorkShaped(m: Platform, o: Office, w: nat)
    requires Shaped(o) && w < |o.desks| && o.desks[w].Banking? && M.Typed(M.Step(m.rnd, o.bank, w))
    requires M.Coherent(o.bank)
    ensures Shaped(Next(m, o, Work(w)))
  {
    assert M.TypedWorker(o.bank, o.bank.workers[w]);
    BankMoves(m.rnd, o.bank, w);
  }

  lemma WorkMoves(m: Platform, o: Office, w: nat)
    requires Shaped(o) && w < |o.desks| && o.desks[w].Banking? && M.Coherent(o.bank)
    ensures Moves(o, Next(m, o, Work(w)), w)
  {
    M.StepCoherent(m.rnd, o.bank, w);
    WorkShaped(m, o, w);
    BankMoves(m.rnd, o.bank, w);
  }

  lemma WorkBank(m: Platform, o: Office, w: nat)
    requires Shaped(o) && w < |o.desks| && o.desks[w].Banking? && M.Coherent(o.bank) && L.Agrees(m.rnd, o.bank)
    ensures var u := Next(m, o, Work(w)); M.Coherent(u.bank) && L.Agrees(m.rnd, u.bank)
  {
    M.StepCoherent(m.rnd, o.bank, w);
    L.StepAgrees(m.rnd, o.bank, w);
  }

  /** The call takes its place: the log and the order of the bank grow together. */
  lemma WorkPlaces(m: Platform, o: Office, w: nat)
    requires Inv(m, o) && w < |o.desks| && o.desks[w].Banking?
    requires M.Enabled(o.bank, w) && M.TakesPlace(o.bank.workers[w])
    ensures Inv(m, Next(m, o, Work(w)))
  {
    assert DeskOk(m, o, w);
    WorkMoves(m, o, w);
    WorkBank(m, o, w);
    PlacedState(m, o, w);
    PlacedDesk(m, o, w);
    PlacedPlace(m, o, w);
    StepKeeps(m, o, Next(m, o, Work(w)), w);
  }

  lemma PlacedState(m: Platform, o: Office, w: nat)
    requires Shaped(o) && w < |o.desks| && o.desks[w].Banking? && AllReadable(o.log) && DeskOk(m, o, w)
    requires M.Enabled(o.bank, w) && M.TakesPlace(o.bank.workers[w])
    requires StateOk(m, o)
    ensures var u := Next(m, o, Work(w)); AllReadable(u.log) && StateOk(m, u)
  {
    assert M.TypedWorker(o.bank, o.bank.workers[w]);
    LogGrows(m, o.log, o.desks[w].a);
    RunExtend(m.rnd, o.bank.order, o.desks[w].op);
  }

  lemma PlacedDesk(m: Platform, o: Office, w: nat)
    requires Shaped(o) && w < |o.desks| && o.desks[w].Banking? && AllReadable(o.log) && DeskOk(m, o, w)
    requires M.Enabled(o.bank, w) && M.TakesPlace(o.bank.workers[w]) && Shaped(Next(m, o, Work(w)))
    ensures var u := Next(m, o, Work(w));
            && AllReadable(u.log) && DeskOk(m, u, w) && PlaceOf(o, w) == -1
            && |u.notes| > |o.notes| && NoteOk(m, u, |o.notes|) && u.notes[|o.notes|].placedAt == o.now
  {
    assert M.TypedWorker(o.bank, o.bank.workers[w]);
  }

  lemma PlacedPlace(m: Platform, o: Office, w: nat)
    requires Shaped(o) && w < |o.desks| && o.desks[w].Banking? && AllReadable(o.log) && DeskOk(m, o, w)
    requires M.Enabled(o.bank, w) && M.TakesPlace(o.bank.workers[w]) && Shaped(Next(m, o, Work(w)))
    requires StateOk(m, o)
    ensures var u, j := Next(m, o, Work(w)), |o.places|;
            AllReadable(u.log) && PlaceOk(m, u.log, u.bank.order, u.places[j], j)
  {
    var u := Next(m, o, Work(w));
    assert M.TypedWorker(o.bank, o.bank.workers[w]);
    assert u.log[..|o.log|] == o.log && u.bank.order[..|o.bank.order|] == o.bank.order;
  }

  /** The call returns what the one packet loop would answer. */
  lemma ReturnIsResponse(m: Platform, o: Office, w: nat)
    requires Inv(m, o) && w < |o.desks| && o.desks[w].Banking? && o.bank.workers[w].pc.Returning?
    ensures var d, x := o.desks[w], o.bank.workers[w];
            && M.TypedWorker(o.bank, x) && PlaceOf(o, w) == o.places[x.ticket]
            && BankResponse(d.op, x.pc.outcome, d.a.env) == ResponseAt(m, Start(), o.log, o.places[x.ticket])
  {
    var x := o.bank.workers[w];
    assert DeskOk(m, o, w) && M.TypedWorker(o.bank, x) && L.AgreesAt(m.rnd, o.bank, x);
    assert PlaceOk(m, o.log, o.bank.order, o.places[x.ticket], x.ticket);
  }

  lemma ReturnedDesk(m: Platform, o: Office, w: nat)
    requires Shaped(o) && w < |o.desks| && o.desks[w].Banking? && o.bank.workers[w].pc.Returning?
    requires AllReadable(o.log) && DeskOk(m, o, w) && M.TypedWorker(o.bank, o.bank.workers[w])
    requires var d, x := o.desks[w], o.bank.workers[w];
             BankResponse(d.op, x.pc.outcome, d.a.env) == ResponseAt(m, Start(), o.log, o.places[x.ticket])
    requires Shaped(Next(m, o, Work(w)))
    ensures var u := Next(m, o, Work(w));
            u.log == o.log && u.notes == o.notes && DeskOk(m, u, w) && PlaceOf(u, w) == PlaceOf(o, w)
  {
  }

  lemma SameNote(m: Platform, o: Office, u: Office, w: nat)
    requires Shaped(o) && Shaped(u) && w < |o.desks| == |u.desks| && AllReadable(o.log)
    requires u.log == o.log && u.notes == o.notes && u.now > o.now && PlaceOf(u, w) == PlaceOf(o, w) >= 0
    requires DeskOk(m, o, w) && NoteOk(m, o, PlaceOf(o, w))
    ensures NoteOk(m, u, PlaceOf(o, w))
  {
  }

  lemma WorkReturns(m: Platform, o: Office, w: nat)
    requires Inv(m, o) && w < |o.desks| && o.desks[w].Banking? && o.bank.workers[w].pc.Returning?
    ensures Inv(m, Next(m, o, Work(w)))
  {
    assert DeskOk(m, o, w);
    ReturnIsResponse(m, o, w);
    WorkMoves(m, o, w);
    WorkBank(m, o, w);
    ReturnedDesk(m, o, w);
    assert NoteOk(m, o, PlaceOf(o, w));
    SameNote(m, o, Next(m, o, Work(w)), w);
    StepKeeps(m, o, Next(m, o, Work(w)), w);
  }

  lemma WorkedDesk(m: Platform, o: Office, w: nat)
    requires Shaped(o) && w < |o.desks| && o.desks[w].Banking? && AllReadable(o.log) && DeskOk(m, o, w)
    requires !(M.Enabled(o.bank, w) && M.TakesPlace(o.bank.workers[w])) && !o.bank.workers[w].pc.Returning?
    requires Shaped(Next(m, o, Work(w)))
    ensures var u := Next(m, o, Work(w));
            && u == o.(bank := u.bank, now := u.now) && u.bank.order == o.bank.order
            && DeskOk(m, u, w) && PlaceOf(u, w) == PlaceOf(o, w)
  {
    assert M.TypedWorker(o.bank, o.bank.workers[w]);
  }

  lemma WorkGoesOn(m: Platform, o: Office, w: nat)
    requires Inv(m, o) && w < |o.desks| && o.desks[w].Banking?
    requires !(M.Enabled(o.bank, w) && M.TakesPlace(o.bank.workers[w])) && !o.bank.workers[w].pc.Returning?
    ensures Inv(m, Next(m, o, Work(w)))
  {
    assert DeskOk(m, o, w);
    WorkMoves(m, o, w);
    WorkBank(m, o, w);
    WorkedDesk(m, o, w);
    if PlaceOf(o, w) >= 0 {
      assert NoteOk(m, o, PlaceOf(o, w));
      SameNote(m, o, Next(m, o, Work(w)), w);
    }
    StepKeeps(m, o, Next(m, o, Work(w)), w);
  }

  /** Nothing but time has passed. */
  lemma TimePasses(m: Platform, o: Office, w: nat)
    requires Inv(m, o) && w < |o.desks|
    ensures Inv(m, o.(now := o.now + 1))
  {
    var u := o.(now := o.now + 1);
    assert DeskOk(m, o, w);
    TimePassesAt(m, o, w);
    if PlaceOf(o, w) >= 0 {
      assert NoteOk(m, o, PlaceOf(o, w));
      SameNote(m, o, u, w);
    }
    StepKeeps(m, o, u, w);
  }

  lemma TimePassesAt(m: Platform, o: Office, w: nat)
    requires Shaped(o) && AllReadable(o.log) && w < |o.desks| && DeskOk(m, o, w)
    ensures var u := o.(now := o.now + 1);
            Moves(o, u, w) && DeskOk(m, u, w) && PlaceOf(u, w) == PlaceOf(o, w)
  {
  }

  lemma ReceiveKeeps(m: Platform, o: Office, w: nat, a: Arrival)
    requires Inv(m, o) && w < |o.desks| && o.desks[w].Waiting?
    ensures Inv(m, Next(m, o, Receive(w, a)))
  {
    if !Readable(a) {
      ReceiveNothing(m, o, w, a);
    } else {
      match Decode(m, a) {
        case Bank(_) => ReceiveBank(m, o, w, a);
        case Invalid => ReceiveInvalid(m, o, w, a);
        case _ => ReceiveOtp(m, o, w, a);
      }
    }
  }

  lemma WorkKeeps(m: Platform, o: Office, w: nat)
    requires Inv(m, o) && w < |o.desks| && o.desks[w].Banking?
    ensures Inv(m, Next(m, o, Work(w)))
  {
    if o.bank.workers[w].pc.Returning? {
      WorkReturns(m, o, w);
    } else if M.Enabled(o.bank, w) && M.TakesPlace(o.bank.workers[w]) {
      WorkPlaces(m, o, w);
    } else {
      WorkGoesOn(m, o, w);
    }
  }

  predicate Acts(o: Office, e: Event)
    requires e.w < |o.desks|
  {
    match e
    case Receive(w, _) => o.desks[w].Waiting?
    case Work(w) => o.desks[w].Banking?
    case Ask(w) => o.desks[w].Asking?
    case Reply(w) => o.desks[w].Answering?
  }

  lemma StandsStill(m: Platform, o: Office, e: Event)
    requires Shaped(o) && e.w < |o.desks| && !Acts(o, e)
    ensures Next(m, o, e) == o.(now := o.now + 1)
  {
  }

  lemma SameDesks(m: Platform, o: Office, e: Event)
    requires Shaped(o) && e.w < |o.desks|
    ensures |Next(m, o, e).desks| == |o.desks|
  {
  }

  /** Every step of every worker keeps the invariant. */
  lemma NextKeeps(m: Platform, o: Office, e: Event)
    requires Inv(m, o) && e.w < |o.desks|
    ensures Inv(m, Next(m, o, e)) && |Next(m, o, e).desks| == |o.desks|
  {
    SameDesks(m, o, e);
    if !Acts(o, e) {
      StandsStill(m, o, e);
      TimePasses(m, o, e.w);
    } else {
      ActKeeps(m, o, e);
    }
  }

  lemma ActKeeps(m: Platform, o: Office, e: Event)
    requires Inv(m, o) && e.w < |o.desks| && Acts(o, e)
    ensures Inv(m, Next(m, o, e))
  {
    match e {
      case Receive(w, a) => ReceiveKeeps(m, o, w, a);
      case Work(w) => WorkKeeps(m, o, w);
      case Ask(w) => AskKeeps(m, o, w);
      case Reply(w) => ReplyKeeps(m, o, w);
    }
  }

  lemma OpeningInv(m: Platform, workers: nat)
    ensures Inv(m, Opening(workers)) && |Opening(workers).desks| == workers
  {
    M.InitCoherent(seq(workers, w => []));
  }
}
