/** Whole runs of the machine: linearizability in real time, deadlock freedom and completion. */
module Interleavings {
  import opened Options
  import opened Accounts
  import opened AccountRuns
  import opened Machine
  import opened Linearizability

  // ---------- the history ----------

  /** The records are in step with the order and with the workers. */
  predicate History(s: State)
    requires Typed(s)
  {
    && (forall k :: 0 <= k < |s.records| ==> RecordOk(s, k))
    && (forall j, k :: 0 <= j < k < |s.records| ==> s.records[j].takenAt < s.records[k].takenAt)
    && (forall w :: 0 <= w < |s.workers| ==> WorkerRecorded(s, w))
  }

  predicate RecordOk(s: State, k: nat)
    requires Typed(s) && k < |s.records|
  {
    var r := s.records[k];
    && r.who < |s.workers| && r.invokedAt < r.takenAt < s.now
    && match r.ret
       case Some(ret) => r.takenAt < ret.at < s.now
       case None => Ticketed(s.workers[r.who].pc) && s.workers[r.who].ticket == k
  }

  predicate WorkerRecorded(s: State, w: nat)
    requires Typed(s) && w < |s.workers|
  {
    var x := s.workers[w];
    && TypedWorker(s, x)
    && (!x.pc.Idle? ==> x.invokedAt < s.now)
    && (Ticketed(x.pc) ==>
          var r := s.records[x.ticket]; r.who == w && r.invokedAt == x.invokedAt && r.ret.None?)
  }

  lemma StepRecordOk(rnd: Rounding, s: State, w: nat, k: nat)
    requires Coherent(s) && w < |s.workers| && Typed(Step(rnd, s, w)) && k < |Step(rnd, s, w).records|
    requires WorkerRecorded(s, w)
    requires k < |s.records| ==> RecordOk(s, k)
    ensures RecordOk(Step(rnd, s, w), k)
  {
    assert TypedWorker(s, s.workers[w]);
  }

  lemma StepWorkerRecorded(rnd: Rounding, s: State, w: nat, v: nat)
    requires Coherent(s) && w < |s.workers| && v < |s.workers| && Typed(Step(rnd, s, w))
    requires WorkerRecorded(s, w) && WorkerRecorded(s, v)
    ensures WorkerRecorded(Step(rnd, s, w), v)
  {
    var u := Step(rnd, s, w);
    assert TypedWorker(s, s.workers[w]) && TypedWorker(s, s.workers[v]) && TypedWorker(u, u.workers[v]);
  }

  lemma StepHistory(rnd: Rounding, s: State, w: nat)
    requires Coherent(s) && History(s) && w < |s.workers| && Coherent(Step(rnd, s, w))
    ensures History(Step(rnd, s, w))
  {
    var u := Step(rnd, s, w);
    assert TypedWorker(s, s.workers[w]) && WorkerRecorded(s, w);
    forall k | 0 <= k < |u.records|
      ensures RecordOk(u, k)
    {
      StepRecordOk(rnd, s, w, k);
    }
    forall v | 0 <= v < |u.workers|
      ensures WorkerRecorded(u, v)
    {
      StepWorkerRecorded(rnd, s, w, v);
    }
    forall j, k | 0 <= j < k < |u.records|
      ensures u.records[j].takenAt < u.records[k].takenAt
    {
      assert RecordOk(s, j);
    }
  }

  /** What has returned is what the sequential run answers. */
  predicate Answered(rnd: Rounding, s: State)
    requires Typed(s)
  {
    forall k :: 0 <= k < |s.records| && s.records[k].ret.Some? ==>
      s.records[k].ret.value.outcome == ResultAt(rnd, s.order, k)
  }

  lemma StepAnswered(rnd: Rounding, s: State, w: nat)
    requires Coherent(s) && Agrees(rnd, s) && Answered(rnd, s) && w < |s.workers| && Coherent(Step(rnd, s, w))
    ensures Answered(rnd, Step(rnd, s, w))
  {
    var x := s.workers[w];
    assert TypedWorker(s, x) && AgreesAt(rnd, s, x);
    RunExtend(rnd, s.order, x.op);
  }

  // ---------- every request is served once, in the worker's own order ----------

  /** The operations of worker w among those that have a place. */
  function PlacedBy(order: seq<Op>, records: seq<Record>, w: nat): seq<Op>
    requires |order| == |records|
  {
    if order == [] then []
    else
      var n := |order| - 1;
      PlacedBy(order[..n], records[..n], w) + if records[n].who == w then [order[n]] else []
  }

  lemma {:induction false} PlacedBySameOwners(order: seq<Op>, a: seq<Record>, b: seq<Record>, w: nat)
    requires |order| == |a| == |b| && forall k :: 0 <= k < |a| ==> a[k].who == b[k].who
    ensures PlacedBy(order, a, w) == PlacedBy(order, b, w)
  {
    if order != [] {
      PlacedBySameOwners(order[..|order| - 1], a[..|order| - 1], b[..|order| - 1], w);
    }
  }

  /** What worker w has been given to do: placed, called but not placed, still to call. */
  function Duties(s: State, w: nat): seq<Op>
    requires Typed(s) && w < |s.workers|
  {
    var x := s.workers[w];
    PlacedBy(s.order, s.records, w) + (if x.pc.Entered? || x.pc.WaitDb? then [x.op] else []) + x.todo
  }

  lemma PlacedByExtend(order: seq<Op>, records: seq<Record>, op: Op, r: Record, w: nat)
    requires |order| == |records|
    ensures PlacedBy(order + [op], records + [r], w)
            == PlacedBy(order, records, w) + if r.who == w then [op] else []
  {
    assert (order + [op])[..|order|] == order && (records + [r])[..|records|] == records;
  }

  lemma PlaceDuties(rnd: Rounding, s: State, w: nat, v: nat)
    requires Coherent(s) && w < |s.workers| && v < |s.workers| && Typed(Step(rnd, s, w))
    requires Enabled(s, w) && TakesPlace(s.workers[w])
    ensures Duties(Step(rnd, s, w), v) == Duties(s, v)
  {
    var x := s.workers[w];
    assert TypedWorker(s, x);
    PlacedByExtend(s.order, s.records, x.op, Record(w, x.invokedAt, s.now, None), v);
  }

  lemma StepDuties(rnd: Rounding, s: State, w: nat, v: nat)
    requires Coherent(s) && w < |s.workers| && v < |s.workers| && Typed(Step(rnd, s, w))
    ensures Duties(Step(rnd, s, w), v) == Duties(s, v)
  {
    var x := s.workers[w];
    assert TypedWorker(s, x);
    if Enabled(s, w) && TakesPlace(x) {
      PlaceDuties(rnd, s, w, v);
    } else {
      PlacedBySameOwners(s.order, s.records, Step(rnd, s, w).records, v);
      if x.pc.Idle? && x.todo != [] {
        assert x.todo == [x.todo[0]] + x.todo[1..];
      }
    }
  }

  // ---------- runs ----------

  predicate Schedule(sched: seq<nat>, n: nat) {
    forall k :: 0 <= k < |sched| ==> sched[k] < n
  }

  /** The state after the workers have stepped in the order given by the schedule. */
  function Exec(rnd: Rounding, todos: seq<seq<Op>>, sched: seq<nat>): (s: State)
    requires Schedule(sched, |todos|)
    ensures Coherent(s) && |s.workers| == |todos|
  {
    if sched == [] then
      InitCoherent(todos);
      Init(todos)
    else
      var s := Exec(rnd, todos, sched[..|sched| - 1]);
      StepCoherent(rnd, s, sched[|sched| - 1]);
      Step(rnd, s, sched[|sched| - 1])
  }

  lemma ExecExtend(rnd: Rounding, todos: seq<seq<Op>>, sched: seq<nat>, w: nat)
    requires Schedule(sched, |todos|) && w < |todos|
    ensures Schedule(sched + [w], |todos|)
    ensures Exec(rnd, todos, sched + [w]) == Step(rnd, Exec(rnd, todos, sched), w)
  {
    assert (sched + [w])[..|sched|] == sched;
  }

  lemma {:induction false} ExecInvariant(rnd: Rounding, todos: seq<seq<Op>>, sched: seq<nat>)
    requires Schedule(sched, |todos|)
    ensures var s := Exec(rnd, todos, sched);
            && Agrees(rnd, s) && History(s) && Answered(rnd, s)
            && forall w :: 0 <= w < |todos| ==> Duties(s, w) == todos[w]
  {
    if sched != [] {
      var s, w := Exec(rnd, todos, sched[..|sched| - 1]), sched[|sched| - 1];
      ExecInvariant(rnd, todos, sched[..|sched| - 1]);
      StepCoherent(rnd, s, w);
      StepAgrees(rnd, s, w);
      StepHistory(rnd, s, w);
      StepAnswered(rnd, s, w);
      forall v | 0 <= v < |todos|
        ensures Duties(Exec(rnd, todos, sched), v) == todos[v]
      {
        StepDuties(rnd, s, w, v);
      }
    }
  }

  /** A call takes its place between its invocation and its return. */
  predicate PlacedWithinCall(s: State) {
    forall k :: 0 <= k < |s.records| && s.records[k].ret.Some? ==>
      s.records[k].invokedAt < s.records[k].takenAt < s.records[k].ret.value.at
  }

  /** A call that returned before another was invoked comes before it in the order. */
  predicate RespectsRealTime(s: State) {
    forall j, k :: 0 <= j < |s.records| && 0 <= k < |s.records| && j != k && s.records[j].ret.Some? ==>
      (s.records[j].ret.value.at < s.records[k].invokedAt ==> j < k)
  }

  lemma HistoryIsLinear(s: State)
    requires Typed(s) && History(s)
    ensures PlacedWithinCall(s) && RespectsRealTime(s)
  {
    forall k | 0 <= k < |s.records| && s.records[k].ret.Some?
      ensures s.records[k].invokedAt < s.records[k].takenAt < s.records[k].ret.value.at
    {
      assert RecordOk(s, k);
    }
    forall j, k | 0 <= j < |s.records| && 0 <= k < |s.records| && j != k && s.records[j].ret.Some?
      ensures s.records[j].ret.value.at < s.records[k].invokedAt ==> j < k
    {
      assert RecordOk(s, j) && RecordOk(s, k);
    }
  }

  /** Linearizability: in every interleaving, every returned result is the result of running the
      operations one by one in the order of places; a call takes its place between its invocation
      and its return, so the order respects real time; each worker's requests are placed once each
      and in their own order; and the abstract table is the table of the sequential run. */
  lemma {:induction false} Linearizable(rnd: Rounding, todos: seq<seq<Op>>, sched: seq<nat>)
    requires Schedule(sched, |todos|)
    ensures var s := Exec(rnd, todos, sched);
            && Answered(rnd, s) && PlacedWithinCall(s) && RespectsRealTime(s)
            && (forall w :: 0 <= w < |todos| ==> PlacedBy(s.order, s.records, w) <= todos[w])
            && Abstract(rnd, s) == Run(rnd, s.order)
  {
    var s := Exec(rnd, todos, sched);
    ExecInvariant(rnd, todos, sched);
    HistoryIsLinear(s);
    forall w | 0 <= w < |todos|
      ensures PlacedBy(s.order, s.records, w) <= todos[w]
    {
      assert Duties(s, w) == todos[w];
    }
  }

  // ---------- the concurrent bank is a map ----------

  lemma {:induction false} PlacedByHas(order: seq<Op>, records: seq<Record>, k: nat)
    requires |order| == |records| && k < |order|
    ensures order[k] in PlacedBy(order, records, records[k].who)
  {
    var n := |order| - 1;
    if k < n {
      PlacedByHas(order[..n], records[..n], k);
    }
  }

  /** No request creates an account with an id too long for its field. */
  predicate ShortIds(todos: seq<seq<Op>>) {
    forall w, k :: 0 <= w < |todos| && 0 <= k < |todos[w]| && todos[w][k].Create? ==>
      |todos[w][k].id| < ACCOUNT_ID_LEN
  }

  /** With ids that fit, every result of every interleaving is what the map from id to balance
      answers after the operations placed before it. */
  lemma {:induction false} ConcurrentBankIsMap(rnd: Rounding, todos: seq<seq<Op>>, sched: seq<nat>, k: nat)
    requires Schedule(sched, |todos|) && ShortIds(todos)
    ensures var s := Exec(rnd, todos, sched);
            k < |s.records| && s.records[k].ret.Some? ==>
              s.records[k].ret.value.outcome == ApplyMap(rnd, RunMap(rnd, s.order[..k]), s.order[k]).1
  {
    var s := Exec(rnd, todos, sched);
    Linearizable(rnd, todos, sched);
    ExecInvariant(rnd, todos, sched);
    forall j | 0 <= j < |s.order|
      ensures !Slips(Run(rnd, s.order[..j]), s.order[j])
    {
      assert RecordOk(s, j);
      PlacedByHas(s.order, s.records, j);
      var w := s.records[j].who;
      assert s.order[j] in todos[w];
    }
    if k < |s.order| {
      NoSlipAnswers(rnd, s.order, k);
    }
  }

  predicate Finished(x: Worker) {
    x.pc.Idle? && x.todo == []
  }

  predicate AllFinished(s: State) {
    forall w :: 0 <= w < |s.workers| ==> Finished(s.workers[w])
  }

  lemma FinishedIsQuiet(rnd: Rounding, s: State)
    requires Coherent(s) && AllFinished(s)
    ensures Abstract(rnd, s) == s.slots[..s.count]
  {
    forall w | 0 <= w < |s.workers|
      ensures !HoldsDb(s.workers[w].pc) && Held(s.workers[w].pc) == -1
    {
      assert Finished(s.workers[w]);
    }
    assert forall i :: 0 <= i < s.count ==> s.owners[i] == None;
    assert s.slots[..s.count] == Ahead(rnd, s);
  }

  lemma FinishedIsAnswered(s: State)
    requires Typed(s) && History(s) && AllFinished(s)
    ensures forall k :: 0 <= k < |s.records| ==> s.records[k].ret.Some?
  {
    forall k | 0 <= k < |s.records|
      ensures s.records[k].ret.Some?
    {
      assert RecordOk(s, k);
      assert Finished(s.workers[s.records[k].who]);
    }
  }

  lemma FinishedDuties(s: State, w: nat)
    requires Typed(s) && AllFinished(s) && w < |s.workers|
    ensures Duties(s, w) == PlacedBy(s.order, s.records, w)
  {
    assert Finished(s.workers[w]);
  }

  /** When all requests are served, shared memory holds exactly the table of the sequential run of
      exactly those requests, and every one of them has its answer. */
  lemma {:induction false} FinishedMemory(rnd: Rounding, todos: seq<seq<Op>>, sched: seq<nat>)
    requires Schedule(sched, |todos|) && AllFinished(Exec(rnd, todos, sched))
    ensures var s := Exec(rnd, todos, sched);
            && s.slots[..s.count] == Run(rnd, s.order)
            && (forall w :: 0 <= w < |todos| ==> PlacedBy(s.order, s.records, w) == todos[w])
            && (forall k :: 0 <= k < |s.records| ==> s.records[k].ret.Some?)
  {
    var s := Exec(rnd, todos, sched);
    ExecInvariant(rnd, todos, sched);
    FinishedIsQuiet(rnd, s);
    FinishedIsAnswered(s);
    forall w | 0 <= w < |todos|
      ensures PlacedBy(s.order, s.records, w) == todos[w]
    {
      FinishedDuties(s, w);
    }
  }

  // ---------- deadlock freedom ----------

  /** As long as a request is unserved some worker can step: whoever holds only an account lock never
      waits, and the holder of db_lock waits only for such a worker. */
  lemma NoDeadlock(s: State)
    requires Coherent(s) && !AllFinished(s)
    ensures exists w :: 0 <= w < |s.workers| && Enabled(s, w)
  {
    if s.dbOwner.Some? {
      var d := s.dbOwner.value;
      assert HoldsDb(s.workers[d].pc) && TypedWorker(s, s.workers[d]);
      if !Enabled(s, d) {
        var i := s.workers[d].pc.i;
        var v := s.owners[i].value;
        assert Held(s.workers[v].pc) == i;
        assert Enabled(s, v);
      }
    } else {
      var w :| 0 <= w < |s.workers| && !Finished(s.workers[w]);
      assert HoldsDb(s.workers[w].pc) <==> s.dbOwner == Some(w);
      assert Enabled(s, w);
    }
  }

  // ---------- termination ----------

  const CALL := 112

  /** An upper bound for the steps left in the current call. */
  function Rank(pc: PC): nat {
    match pc
    case Idle => 0
    case Entered => 111
    case WaitDb => 110
    case Scan(i) => if i <= MAX_ACCOUNTS then 109 - i else 0
    case CheckFull => 7
    case WriteId => 6
    case WriteBalance => 5
    case WriteActive => 4
    case BumpCount => 3
    case WaitAccount(_) => 8
    case Both(_) => 7
    case Test(_) => 6
    case Load(_) => 5
    case Store(_, _) => 4
    case Reload(_) => 3
    case Unlock(_, _) => 2
    case ReleaseDb(_) => 2
    case Returning(_) => 1
  }

  function Work(ws: seq<Worker>): nat {
    if ws == [] then 0
    else Work(ws[..|ws| - 1]) + CALL * |ws[|ws| - 1].todo| + Rank(ws[|ws| - 1].pc)
  }

  lemma {:induction false} WorkUpdate(ws: seq<Worker>, w: nat, x: Worker)
    requires w < |ws|
    requires CALL * |x.todo| + Rank(x.pc) < CALL * |ws[w].todo| + Rank(ws[w].pc)
    ensures Work(ws[w := x]) < Work(ws)
  {
    var vs := ws[w := x];
    if w == |ws| - 1 {
      assert vs[..|ws| - 1] == ws[..|ws| - 1];
    } else {
      assert vs[..|ws| - 1] == ws[..|ws| - 1][w := x];
      WorkUpdate(ws[..|ws| - 1], w, x);
    }
  }

  /** Every step of any worker lowers the total work left. */
  lemma StepWork(rnd: Rounding, s: State, w: nat)
    requires Coherent(s) && w < |s.workers| && Enabled(s, w)
    ensures Work(Step(rnd, s, w).workers) < Work(s.workers)
  {
    var x := s.workers[w];
    assert TypedWorker(s, x);
    WorkUpdate(s.workers, w, NextWorker(s, x));
  }

  /** The scheduled worker could step each time. */
  predicate Effective(rnd: Rounding, todos: seq<seq<Op>>, sched: seq<nat>)
    requires Schedule(sched, |todos|)
  {
    sched == []
    || (var init := sched[..|sched| - 1];
        Effective(rnd, todos, init) && Enabled(Exec(rnd, todos, init), sched[|sched| - 1]))
  }

  /** No run without idle steps is longer than the work at its start. */
  lemma {:induction false} RunsAreBounded(rnd: Rounding, todos: seq<seq<Op>>, sched: seq<nat>)
    requires Schedule(sched, |todos|) && Effective(rnd, todos, sched)
    ensures |sched| + Work(Exec(rnd, todos, sched).workers) <= Work(Init(todos).workers)
  {
    if sched != [] {
      var init := sched[..|sched| - 1];
      RunsAreBounded(rnd, todos, init);
      StepWork(rnd, Exec(rnd, todos, init), sched[|sched| - 1]);
    }
  }

  lemma Progress(rnd: Rounding, todos: seq<seq<Op>>, sched: seq<nat>) returns (w: nat)
    requires Schedule(sched, |todos|) && !AllFinished(Exec(rnd, todos, sched))
    ensures w < |todos| && Schedule(sched + [w], |todos|)
    ensures Work(Exec(rnd, todos, sched + [w]).workers) < Work(Exec(rnd, todos, sched).workers)
  {
    var s := Exec(rnd, todos, sched);
    NoDeadlock(s);
    w :| w < |s.workers| && Enabled(s, w);
    StepWork(rnd, s, w);
    ExecExtend(rnd, todos, sched, w);
  }

  /** From every reachable state all requests can be completed. */
  lemma {:induction false} CanComplete(rnd: Rounding, todos: seq<seq<Op>>, sched: seq<nat>)
    returns (full: seq<nat>)
    requires Schedule(sched, |todos|)
    ensures sched <= full && Schedule(full, |todos|) && AllFinished(Exec(rnd, todos, full))
    decreases Work(Exec(rnd, todos, sched).workers)
  {
    full := sched;
    if !AllFinished(Exec(rnd, todos, sched)) {
      var w := Progress(rnd, todos, sched);
      full := CanComplete(rnd, todos, sched + [w]);
    }
  }
}
