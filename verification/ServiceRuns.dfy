/** Whole runs of the server: every reply of every worker is what one packet loop answers, in an order
    that respects real time. */
module ServiceRuns {
  import opened Options
  import opened Protocol
  import opened AccountRuns
  import opened Server
  import opened Service
  import M = Machine
  import I = Interleavings

  predicate Within(events: seq<Event>, workers: nat) {
    forall k :: 0 <= k < |events| ==> events[k].w < workers
  }

  /** The office after the events. */
  function Serve(m: Platform, workers: nat, events: seq<Event>): (o: Office)
    requires Within(events, workers)
    ensures Inv(m, o) && |o.desks| == workers
  {
    if events == [] then
      OpeningInv(m, workers);
      Opening(workers)
    else
      var o := Serve(m, workers, events[..|events| - 1]);
      NextKeeps(m, o, events[|events| - 1]);
      Next(m, o, events[|events| - 1])
  }

  // ---------- every packet is placed once ----------

  /** The packets of worker w in the log. */
  function OfWorker(log: seq<Arrival>, notes: seq<Note>, w: nat): seq<Arrival>
    requires |log| == |notes|
  {
    if log == [] then []
    else
      var n := |log| - 1;
      OfWorker(log[..n], notes[..n], w) + if notes[n].who == w then [log[n]] else []
  }

  lemma {:induction false} OfWorkerSame(log: seq<Arrival>, a: seq<Note>, b: seq<Note>, w: nat)
    requires |log| == |a| == |b| && forall k :: 0 <= k < |a| ==> a[k].who == b[k].who
    ensures OfWorker(log, a, w) == OfWorker(log, b, w)
  {
    if log != [] {
      OfWorkerSame(log[..|log| - 1], a[..|log| - 1], b[..|log| - 1], w);
    }
  }

  lemma OfWorkerExtend(log: seq<Arrival>, notes: seq<Note>, a: Arrival, n: Note, w: nat)
    requires |log| == |notes|
    ensures OfWorker(log + [a], notes + [n], w) == OfWorker(log, notes, w) + if n.who == w then [a] else []
  {
    assert (log + [a])[..|log|] == log && (notes + [n])[..|notes|] == notes;
  }

  /** The packet that worker w has read and that has no place yet. */
  function InHand(o: Office, w: nat): seq<Arrival>
    requires Shaped(o) && w < |o.desks|
  {
    match o.desks[w]
    case Banking(a, _, _) => if M.Ticketed(o.bank.workers[w].pc) then [] else [a]
    case Asking(a, _, _) => [a]
    case _ => []
  }

  /** What worker w has read is what has a place, in that order, and what is in its hand. */
  predicate ReadOk(o: Office, w: nat)
    requires Shaped(o) && w < |o.desks|
  {
    o.read[w] == OfWorker(o.log, o.notes, w) + InHand(o, w)
  }

  lemma PlacedRead(o: Office, u: Office, w: nat, a: Arrival, n: Note)
    requires Shaped(o) && Shaped(u) && w < |o.desks| == |u.desks| && ReadOk(o, w)
    requires u.log == o.log + [a] && u.notes == o.notes + [n] && n.who == w && InHand(u, w) == []
    requires (InHand(o, w) == [] && u.read[w] == o.read[w] + [a]) || (InHand(o, w) == [a] && u.read[w] == o.read[w])
    ensures ReadOk(u, w)
  {
    OfWorkerExtend(o.log, o.notes, a, n, w);
  }

  /** A step of worker w leaves the other workers' packets alone. */
  predicate ReadsOf(o: Office, u: Office, w: nat) {
    && Moves(o, u, w)
    && (forall v :: 0 <= v < |o.desks| && v != w ==> u.read[v] == o.read[v])
    && (forall k :: 0 <= k < |o.notes| ==> u.notes[k].who == o.notes[k].who)
    && (|u.notes| > |o.notes| ==> u.notes[|o.notes|].who == w)
  }

  lemma OtherPackets(log: seq<Arrival>, notes: seq<Note>, longer: seq<Arrival>, more: seq<Note>, v: nat)
    requires |log| == |notes| && |longer| == |more| && log <= longer && |longer| <= |log| + 1
    requires forall k :: 0 <= k < |notes| ==> more[k].who == notes[k].who
    requires |more| > |notes| ==> more[|notes|].who != v
    ensures OfWorker(longer, more, v) == OfWorker(log, notes, v)
  {
    if |longer| > |log| {
      OnePacketMore(log, notes, longer, more, v);
    } else {
      assert longer == log;
      OfWorkerSame(log, notes, more, v);
    }
  }

  lemma OnePacketMore(log: seq<Arrival>, notes: seq<Note>, longer: seq<Arrival>, more: seq<Note>, v: nat)
    requires |log| == |notes| && |longer| == |more| == |log| + 1 && longer[..|log|] == log
    requires forall k :: 0 <= k < |notes| ==> more[k].who == notes[k].who
    requires more[|notes|].who != v
    ensures OfWorker(longer, more, v) == OfWorker(log, notes, v)
  {
    OfWorkerSame(log, notes, more[..|log|], v);
  }

  lemma OtherRead(o: Office, u: Office, w: nat, v: nat)
    requires ReadsOf(o, u, w) && v < |o.desks| && v != w && ReadOk(o, v)
    ensures ReadOk(u, v)
  {
    OtherPackets(o.log, o.notes, u.log, u.notes, v);
    assert InHand(u, v) == InHand(o, v);
  }

  lemma ReceiveReadsOf(m: Platform, o: Office, w: nat, a: Arrival)
    requires Shaped(o) && w < |o.desks| && o.desks[w].Waiting?
    requires Shaped(Next(m, o, Receive(w, a)))
    ensures ReadsOf(o, Next(m, o, Receive(w, a)), w)
  {
  }

  lemma ReceiveHand(m: Platform, o: Office, w: nat, a: Arrival)
    requires Shaped(o) && w < |o.desks| && o.desks[w].Waiting? && o.bank.workers[w].pc.Idle?
    requires Shaped(Next(m, o, Receive(w, a)))
    ensures var u := Next(m, o, Receive(w, a));
            && InHand(o, w) == []
            && if Readable(a) && Decode(m, a).Invalid?
               then u.log == o.log + [a] && u.notes == o.notes + [Note(w, o.now, o.now, None)]
                    && u.read[w] == o.read[w] + [a] && InHand(u, w) == []
               else u.log == o.log && u.notes == o.notes && u.read[w] == o.read[w] + InHand(u, w)
  {
  }

  lemma ReceiveRead(m: Platform, o: Office, w: nat, a: Arrival)
    requires Shaped(o) && w < |o.desks| && o.desks[w].Waiting? && ReadOk(o, w)
    requires o.bank.workers[w].pc.Idle? && Shaped(Next(m, o, Receive(w, a)))
    ensures ReadOk(Next(m, o, Receive(w, a)), w)
  {
    ReceiveHand(m, o, w, a);
    if Readable(a) && Decode(m, a).Invalid? {
      PlacedRead(o, Next(m, o, Receive(w, a)), w, a, Note(w, o.now, o.now, None));
    }
  }

  lemma AskRead(m: Platform, o: Office, w: nat)
    requires Shaped(o) && w < |o.desks| && o.desks[w].Asking? && ReadOk(o, w) && Shaped(Next(m, o, Ask(w)))
    ensures var u := Next(m, o, Ask(w)); ReadsOf(o, u, w) && ReadOk(u, w)
  {
    var u := Next(m, o, Ask(w));
    PlacedRead(o, u, w, o.desks[w].a, u.notes[|o.notes|]);
  }

  lemma ReplyRead(m: Platform, o: Office, w: nat)
    requires Shaped(o) && w < |o.desks| && o.desks[w].Answering? && ReadOk(o, w) && Shaped(Next(m, o, Reply(w)))
    ensures var u := Next(m, o, Reply(w)); ReadsOf(o, u, w) && ReadOk(u, w)
  {
    ReplyMoves(m, o, w);
    OfWorkerSame(o.log, o.notes, Next(m, o, Reply(w)).notes, w);
  }

  lemma WorkHand(m: Platform, o: Office, w: nat)
    requires Shaped(o) && w < |o.desks| && o.desks[w].Banking? && M.Coherent(o.bank)
    requires Shaped(Next(m, o, Work(w)))
    ensures var u, d := Next(m, o, Work(w)), o.desks[w];
            && u.read == o.read
            && if M.Enabled(o.bank, w) && M.TakesPlace(o.bank.workers[w])
               then u.log == o.log + [d.a] && u.notes == o.notes + [Note(w, d.since, o.now, None)]
                    && InHand(o, w) == [d.a] && InHand(u, w) == []
               else u.log == o.log && u.notes == o.notes && InHand(u, w) == InHand(o, w)
  {
    assert M.TypedWorker(o.bank, o.bank.workers[w]);
  }

  lemma WorkRead(m: Platform, o: Office, w: nat)
    requires Shaped(o) && w < |o.desks| && o.desks[w].Banking? && ReadOk(o, w) && M.Coherent(o.bank)
    ensures var u := Next(m, o, Work(w)); ReadsOf(o, u, w) && ReadOk(u, w)
  {
    WorkMoves(m, o, w);
    WorkHand(m, o, w);
    if M.Enabled(o.bank, w) && M.TakesPlace(o.bank.workers[w]) {
      var d := o.desks[w];
      PlacedRead(o, Next(m, o, Work(w)), w, d.a, Note(w, d.since, o.now, None));
    }
  }

  lemma ActRead(m: Platform, o: Office, e: Event)
    requires Inv(m, o) && e.w < |o.desks| && Acts(o, e) && ReadOk(o, e.w)
    ensures ReadsOf(o, Next(m, o, e), e.w) && ReadOk(Next(m, o, e), e.w)
  {
    NextKeeps(m, o, e);
    match e {
      case Receive(w, a) =>
        assert DeskOk(m, o, w);
        ReceiveReadsOf(m, o, w, a);
        ReceiveRead(m, o, w, a);
      case Work(w) => WorkRead(m, o, w);
      case Ask(w) => AskRead(m, o, w);
      case Reply(w) => ReplyRead(m, o, w);
    }
  }

  lemma NextRead(m: Platform, o: Office, e: Event, v: nat)
    requires Inv(m, o) && e.w < |o.desks| && v < |o.desks| && ReadOk(o, e.w) && ReadOk(o, v)
    ensures Shaped(Next(m, o, e)) && v < |Next(m, o, e).desks| && ReadOk(Next(m, o, e), v)
  {
    NextKeeps(m, o, e);
    if !Acts(o, e) {
      StandsStill(m, o, e);
    } else {
      ActRead(m, o, e);
      if v != e.w {
        OtherRead(o, Next(m, o, e), e.w, v);
      }
    }
  }

  lemma {:induction false} EveryRead(m: Platform, workers: nat, events: seq<Event>, w: nat)
    requires Within(events, workers) && w < workers
    ensures ReadOk(Serve(m, workers, events), w)
  {
    if events != [] {
      EveryRead(m, workers, events[..|events| - 1], w);
      EveryRead(m, workers, events[..|events| - 1], events[|events| - 1].w);
      NextRead(m, Serve(m, workers, events[..|events| - 1]), events[|events| - 1], w);
    }
  }

  // ---------- the server answers as one packet loop ----------

  /** Each reply is the one that a single packet loop sends at that place of the log. */
  predicate AnswersOf(m: Platform, o: Office)
    requires Shaped(o) && AllReadable(o.log)
  {
    forall k :: 0 <= k < |o.notes| && o.notes[k].answer.Some? ==>
      o.notes[k].answer.value.wire == Replies(m, Start(), o.log)[k]
  }

  predicate PlacedInTime(notes: seq<Note>) {
    forall k :: 0 <= k < |notes| ==>
      notes[k].arrivedAt <= notes[k].placedAt
      && (notes[k].answer.Some? ==> notes[k].placedAt < notes[k].answer.value.at)
  }

  /** A packet that was answered before another was read comes before it in the log. */
  predicate RespectsRealTime(notes: seq<Note>) {
    forall j, k :: 0 <= j < |notes| && 0 <= k < |notes| && notes[j].answer.Some? ==>
      (notes[j].answer.value.at < notes[k].arrivedAt ==> j < k)
  }

  lemma InTimeIsRealTime(notes: seq<Note>)
    requires InOrder(notes) && PlacedInTime(notes)
    ensures RespectsRealTime(notes)
  {
  }

  lemma NoteTells(m: Platform, o: Office, k: nat)
    requires Shaped(o) && AllReadable(o.log) && k < |o.notes| && NoteOk(m, o, k)
    ensures o.notes[k].answer.Some? ==> o.notes[k].answer.value.wire == Replies(m, Start(), o.log)[k]
    ensures o.notes[k].arrivedAt <= o.notes[k].placedAt
    ensures o.notes[k].answer.Some? ==> o.notes[k].placedAt < o.notes[k].answer.value.at
  {
  }

  lemma NotesTell(m: Platform, o: Office)
    requires Inv(m, o)
    ensures AnswersOf(m, o) && PlacedInTime(o.notes) && RespectsRealTime(o.notes)
  {
    assert NotesOk(m, o);
    NotesTold(m, o);
    InTimeIsRealTime(o.notes);
  }

  lemma NotesTold(m: Platform, o: Office)
    requires Shaped(o) && AllReadable(o.log) && NotesOk(m, o)
    ensures AnswersOf(m, o) && PlacedInTime(o.notes)
  {
    forall k | 0 <= k < |o.notes|
      ensures o.notes[k].answer.Some? ==> o.notes[k].answer.value.wire == Replies(m, Start(), o.log)[k]
      ensures o.notes[k].arrivedAt <= o.notes[k].placedAt
      ensures o.notes[k].answer.Some? ==> o.notes[k].placedAt < o.notes[k].answer.value.at
    {
      NoteTells(m, o, k);
    }
  }

  /** Any number of workers answer as one packet loop does: the packets of all connections have an
      order, each worker's in the order in which it read them, such that every reply is the one that
      the loop sends after the packets before it, that both servers are where the loop leaves them, and
      that a packet is placed between its arrival and its reply. */
  lemma {:induction false} ServerIsPacketLoop(m: Platform, workers: nat, events: seq<Event>)
    requires Within(events, workers)
    ensures var o := Serve(m, workers, events);
            && Shaped(o) && AllReadable(o.log)
            && AnswersOf(m, o) && PlacedInTime(o.notes) && RespectsRealTime(o.notes) && StateOk(m, o)
            && (forall w :: 0 <= w < workers ==> ReadOk(o, w))
  {
    var o := Serve(m, workers, events);
    NotesTell(m, o);
    forall w | 0 <= w < workers
      ensures ReadOk(o, w)
    {
      EveryRead(m, workers, events, w);
    }
  }

  // ---------- at rest ----------

  /** No worker has a packet to answer. */
  predicate AtRest(o: Office) {
    forall w :: 0 <= w < |o.desks| ==> o.desks[w].Waiting? || o.desks[w].Dead?
  }

  lemma RestingBank(m: Platform, o: Office)
    requires Inv(m, o) && AtRest(o)
    ensures o.bank.slots[..o.bank.count] == StateAfter(m, Start(), o.log).table
  {
    forall w | 0 <= w < |o.bank.workers|
      ensures I.Finished(o.bank.workers[w])
    {
      assert DeskOk(m, o, w);
    }
    I.FinishedIsQuiet(m.rnd, o.bank);
  }

  lemma RestingNotes(m: Platform, o: Office)
    requires Inv(m, o) && AtRest(o)
    ensures forall k :: 0 <= k < |o.notes| ==> o.notes[k].answer.Some?
  {
    forall k | 0 <= k < |o.notes|
      ensures o.notes[k].answer.Some?
    {
      assert NoteOk(m, o, k) && PlaceOf(o, o.notes[k].who) == -1;
    }
  }

  /** When no worker has a packet to answer, every packet that was read has its place and its answer,
      and shared memory is what the one packet loop leaves. */
  lemma {:induction false} AllAnsweredAtRest(m: Platform, workers: nat, events: seq<Event>)
    requires Within(events, workers) && AtRest(Serve(m, workers, events))
    ensures var o := Serve(m, workers, events);
            && Shaped(o) && AllReadable(o.log)
            && (forall w :: 0 <= w < workers ==> o.read[w] == OfWorker(o.log, o.notes, w))
            && (forall k :: 0 <= k < |o.notes| ==> o.notes[k].answer.Some?)
            && StateAfter(m, Start(), o.log) == Sys(o.bank.slots[..o.bank.count], o.otps)
  {
    var o := Serve(m, workers, events);
    RestingBank(m, o);
    RestingNotes(m, o);
    forall w | 0 <= w < workers
      ensures o.read[w] == OfWorker(o.log, o.notes, w)
    {
      EveryRead(m, workers, events, w);
    }
  }

  // ---------- what the clients read ----------

  /** Every answered bank request carries, through the wire, the status and the balance that the map
      from id to balance gives after the bank requests placed before it, as long as no over-long id has
      taken a slot. */
  lemma {:induction false} RepliesAreOfTheMap(m: Platform, workers: nat, events: seq<Event>, k: nat)
    requires Within(events, workers)
    ensures var o := Serve(m, workers, events);
            Shaped(o) && AllReadable(o.log)
            && (k < |o.log| && o.notes[k].answer.Some? && PlainText(o.log[k].env)
                && Decode(m, o.log[k]).Bank? && NoSlip(m.rnd, BankOps(m, o.log[..k])) ==>
                  var wire := o.notes[k].answer.value.wire;
                  var outcome := ApplyMap(m.rnd, RunMap(m.rnd, BankOps(m, o.log[..k])), Decode(m, o.log[k]).op).1;
                  && InRange(wire) && Unpack(wire, RESPONSE_SIZE).Some?
                  && var reply := Unpack(wire, RESPONSE_SIZE).value;
                     |reply| == RESPONSE_SIZE && StatusOf(reply) == outcome.status
                     && (outcome.balance.Some? ==>
                           BalanceOf(reply) == Fit(m.enc(outcome.balance.value), DOUBLE_SIZE)))
  {
    var o := Serve(m, workers, events);
    if k < |o.log| && o.notes[k].answer.Some? && PlainText(o.log[k].env)
       && Decode(m, o.log[k]).Bank? && NoSlip(m.rnd, BankOps(m, o.log[..k]))
    {
      NotesTell(m, o);
      RepliesCarryResponses(m, o.log, k);
      LoopRefinesBank(m, o.log, k);
    }
  }
}
