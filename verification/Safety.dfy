/** What holds of the shared memory in every reachable state: no race, no overdraft, no money lost. */
module Safety {
  import opened Accounts
  import opened AccountRuns
  import opened Machine
  import opened Linearizability
  import opened Interleavings

  // ---------- race freedom ----------

  /** A memory location of the shared database. */
  datatype Location = IdAt(i: nat) | BalanceAt(i: nat) | ActiveAt(i: nat) | TheCount

  /** The locations that worker x's next step reads. */
  function Reads(s: State, x: Worker): set<Location> {
    match x.pc
    case Scan(i) => if i < s.count then {TheCount, ActiveAt(i), IdAt(i)} else {TheCount}
    case CheckFull => {TheCount}
    case WriteId => {TheCount}
    case WriteBalance => {TheCount}
    case WriteActive => {TheCount}
    case BumpCount => {TheCount}
    case Test(i) => {BalanceAt(i)}
    case Load(i) => {BalanceAt(i)}
    case Reload(i) => {BalanceAt(i)}
    case _ => {}
  }

  /** The locations that worker x's next step writes. */
  function Writes(s: State, x: Worker): set<Location> {
    match x.pc
    case WriteId => {IdAt(s.count)}
    case WriteBalance => {BalanceAt(s.count)}
    case WriteActive => {ActiveAt(s.count)}
    case BumpCount => {TheCount}
    case Store(i, _) => {BalanceAt(i)}
    case _ => {}
  }

  /** The values at two states' locations coincide. */
  predicate SameAt(s: State, u: State, l: Location)
    requires Typed(s) && Typed(u)
  {
    match l
    case IdAt(i) => i < MAX_ACCOUNTS ==> u.slots[i].id == s.slots[i].id
    case BalanceAt(i) => i < MAX_ACCOUNTS ==> u.slots[i].balance == s.slots[i].balance
    case ActiveAt(i) => i < MAX_ACCOUNTS ==> u.slots[i].active == s.slots[i].active
    case TheCount => u.count == s.count
  }

  /** Writes is honest: a step changes nothing else. */
  lemma WritesOnly(rnd: Rounding, s: State, w: nat, l: Location)
    requires Coherent(s) && w < |s.workers| && Typed(Step(rnd, s, w)) && l !in Writes(s, s.workers[w])
    ensures SameAt(s, Step(rnd, s, w), l)
  {
    assert TypedWorker(s, s.workers[w]);
  }

  /** Reads is honest: where two states agree on it, the worker does the same in both. */
  lemma ReadsOnly(rnd: Rounding, s: State, u: State, x: Worker)
    requires Typed(s) && Typed(u) && TypedWorker(s, x) && TypedWorker(u, x)
    requires forall l :: l in Reads(s, x) ==> SameAt(s, u, l)
    ensures NextPC(s, x) == NextPC(u, x) && Writes(s, x) == Writes(u, x)
    ensures forall i :: 0 <= i < MAX_ACCOUNTS && BalanceAt(i) in Writes(s, x) ==>
              NextSlots(rnd, s, x)[i].balance == NextSlots(rnd, u, x)[i].balance
    ensures forall i :: 0 <= i < MAX_ACCOUNTS && IdAt(i) in Writes(s, x) ==>
              NextSlots(rnd, s, x)[i].id == NextSlots(rnd, u, x)[i].id
    ensures forall i :: 0 <= i < MAX_ACCOUNTS && ActiveAt(i) in Writes(s, x) ==>
              NextSlots(rnd, s, x)[i].active == NextSlots(rnd, u, x)[i].active
    ensures TheCount in Writes(s, x) ==> NextCount(s, x) == NextCount(u, x)
  {
    if x.pc.Test? || x.pc.Load? || x.pc.Reload? {
      assert SameAt(s, u, BalanceAt(x.pc.i));
    } else if x.pc.Scan? {
      assert SameAt(s, u, TheCount);
      if x.pc.i < s.count {
        assert SameAt(s, u, IdAt(x.pc.i)) && SameAt(s, u, ActiveAt(x.pc.i));
      }
    } else if x.pc.CheckFull? || Writing(x.pc) {
      assert SameAt(s, u, TheCount);
    }
  }

  /** No two workers are ever about to touch one location with one of them writing it, although
      create writes its slot without that slot's lock. */
  lemma RaceFree(s: State, w: nat, v: nat)
    requires Coherent(s) && w < |s.workers| && v < |s.workers| && w != v
    ensures Writes(s, s.workers[w]) !! (Reads(s, s.workers[v]) + Writes(s, s.workers[v]))
  {
    NoSharing(s, w, v);
    assert TypedWorker(s, s.workers[w]) && TypedWorker(s, s.workers[v]);
  }

  /** While a worker holds an account lock no other worker changes that balance; in particular not
      between a withdrawal's test and its write. */
  lemma BalanceStableWhileHeld(rnd: Rounding, s: State, w: nat, v: nat)
    requires Coherent(s) && w < |s.workers| && v < |s.workers| && w != v
    requires Held(s.workers[w].pc) >= 0
    ensures var i := Held(s.workers[w].pc); var u := Step(rnd, s, v);
            i < |s.slots| == |u.slots| && u.slots[i] == s.slots[i]
            && u.workers[w] == s.workers[w]
  {
    NoSharing(s, w, v);
    assert TypedWorker(s, s.workers[w]) && TypedWorker(s, s.workers[v]);
  }

  // ---------- no overdraft ----------

  ghost predicate Monotone(rnd: Rounding) {
    rnd(0.0) == 0.0 && forall a: real, b: real :: a <= b ==> rnd(a) <= rnd(b)
  }

  predicate NonNegative(s: State) {
    forall i :: 0 <= i < |s.slots| ==> s.slots[i].balance >= 0.0
  }

  lemma StepNonNegative(rnd: Rounding, s: State, w: nat)
    requires Monotone(rnd) && Coherent(s) && NonNegative(s) && w < |s.workers|
    ensures NonNegative(Step(rnd, s, w))
  {
    var x := s.workers[w];
    assert TypedWorker(s, x) && Local(s, x);
    if x.pc.Store? {
      var v := x.pc.v;
      assert v >= 0.0;
      if x.op.Deposit? {
        assert rnd(0.0) <= rnd(v + x.op.amount);
      } else {
        assert rnd(0.0) <= rnd(v - x.op.amount);
      }
    }
  }

  /** Under any monotone rounding no balance is ever negative, in the middle of operations included. */
  lemma {:induction false} NoOverdraft(rnd: Rounding, todos: seq<seq<Op>>, sched: seq<nat>)
    requires Monotone(rnd) && Schedule(sched, |todos|)
    ensures NonNegative(Exec(rnd, todos, sched))
  {
    if sched != [] {
      NoOverdraft(rnd, todos, sched[..|sched| - 1]);
      StepNonNegative(rnd, Exec(rnd, todos, sched[..|sched| - 1]), sched[|sched| - 1]);
    }
  }

  // ---------- conservation ----------

  /** The effect of the k-th operation of the order has reached memory. */
  predicate Booked(s: State, k: nat)
    requires Typed(s) && k < |s.records|
  {
    var r := s.records[k];
    r.ret.Some? || (r.who < |s.workers| && AfterWrite(s.workers[r.who].pc))
  }

  predicate AfterWrite(pc: PC) {
    pc.Reload? || pc.Unlock? || pc.ReleaseDb? || pc.Returning?
  }

  function Books(s: State): (mask: seq<bool>)
    requires Typed(s)
    ensures |mask| == |s.order| && forall k :: 0 <= k < |mask| ==> (mask[k] <==> Booked(s, k))
  {
    seq(|s.order|, k requires 0 <= k < |s.order| => Booked(s, k))
  }

  /** The net amount of the booked operations: the balances of created accounts and the deposits,
      less the withdrawals; failed operations and queries count for nothing. */
  function NetBooked(rnd: Rounding, order: seq<Op>, mask: seq<bool>): real
    requires |order| == |mask|
  {
    if order == [] then 0.0
    else
      var n := |order| - 1;
      NetBooked(rnd, order[..n], mask[..n]) + (if mask[n] then Net(order[n], ResultAt(rnd, order, n)) else 0.0)
  }

  lemma {:induction false} NetBookedFlip(rnd: Rounding, order: seq<Op>, mask: seq<bool>, t: nat)
    requires |order| == |mask| && t < |mask| && !mask[t]
    ensures NetBooked(rnd, order, mask[t := true])
            == NetBooked(rnd, order, mask) + Net(order[t], ResultAt(rnd, order, t))
  {
    var n := |order| - 1;
    var flipped := mask[t := true];
    if t == n {
      assert flipped[..n] == mask[..n];
    } else {
      assert flipped[..n] == mask[..n][t := true];
      assert order[..n][..t] == order[..t];
      NetBookedFlip(rnd, order[..n], mask[..n], t);
    }
  }

  lemma NetBookedExtend(rnd: Rounding, order: seq<Op>, mask: seq<bool>, op: Op, b: bool)
    requires |order| == |mask|
    ensures NetBooked(rnd, order + [op], mask + [b])
            == NetBooked(rnd, order, mask) + if b then Net(op, ResultAt(rnd, order + [op], |order|)) else 0.0
  {
    assert (order + [op])[..|order|] == order && (mask + [b])[..|mask|] == mask;
  }

  /** The step at which worker x's effect reaches memory, or is known to be none. */
  predicate BooksNow(s: State, x: Worker)
    requires Typed(s) && TypedWorker(s, x)
  {
    Ticketed(x.pc) && !AfterWrite(x.pc) && AfterWrite(NextPC(s, x))
  }

  lemma BooksStep(rnd: Rounding, s: State, w: nat)
    requires Coherent(s) && History(s) && w < |s.workers| && Enabled(s, w) && Typed(Step(rnd, s, w))
    ensures var u, x := Step(rnd, s, w), s.workers[w];
            TypedWorker(s, x)
            && (BooksNow(s, x) ==> !Books(s)[x.ticket])
            && Books(u) == if TakesPlace(x) then Books(s) + [x.pc.Entered?]
                           else if BooksNow(s, x) then Books(s)[x.ticket := true] else Books(s)
  {
    var u, x := Step(rnd, s, w), s.workers[w];
    assert TypedWorker(s, x) && WorkerRecorded(s, w);
    forall k | 0 <= k < |s.order|
      ensures Booked(u, k) <==> Booked(s, k) || (BooksNow(s, x) && k == x.ticket)
    {
      BookedStep(rnd, s, w, k);
    }
  }

  lemma BookedStep(rnd: Rounding, s: State, w: nat, k: nat)
    requires Coherent(s) && History(s) && w < |s.workers| && Enabled(s, w) && Typed(Step(rnd, s, w))
    requires k < |s.order| && TypedWorker(s, s.workers[w])
    ensures var u, x := Step(rnd, s, w), s.workers[w];
            Booked(u, k) <==> Booked(s, k) || (BooksNow(s, x) && k == x.ticket)
  {
    assert WorkerRecorded(s, w) && RecordOk(s, k);
  }

  function InMemory(s: State): Table
    requires Typed(s)
  {
    s.slots[..s.count]
  }

  lemma TotalStore(rnd: Rounding, s: State, w: nat)
    requires Exact(rnd) && Coherent(s) && w < |s.workers| && Typed(Step(rnd, s, w))
    requires s.workers[w].pc.Store?
    ensures var u, x := Step(rnd, s, w), s.workers[w];
            TypedWorker(s, x) && Total(InMemory(u)) == Total(InMemory(s)) + Net(x.op, Promised(rnd, s, x))
  {
    var u, x := Step(rnd, s, w), s.workers[w];
    assert TypedWorker(s, x) && Local(s, x);
    var i := x.pc.i;
    assert InMemory(u) == InMemory(s)[i := InMemory(s)[i].(balance := u.slots[i].balance)];
    TotalUpdate(InMemory(s), i, u.slots[i].balance);
  }

  lemma TotalPublish(rnd: Rounding, s: State, w: nat)
    requires Coherent(s) && w < |s.workers| && Typed(Step(rnd, s, w)) && s.workers[w].pc.BumpCount?
    ensures var u, x := Step(rnd, s, w), s.workers[w];
            TypedWorker(s, x) && Total(InMemory(u)) == Total(InMemory(s)) + Net(x.op, Promised(rnd, s, x))
  {
    assert TypedWorker(s, s.workers[w]);
    PublishedPromise(rnd, s, w);
    PublishedMemory(rnd, s, w);
    TotalAppend(InMemory(s), InMemory(Step(rnd, s, w))[s.count]);
  }

  lemma PublishedPromise(rnd: Rounding, s: State, w: nat)
    requires Coherent(s) && w < |s.workers| && TypedWorker(s, s.workers[w]) && s.workers[w].pc.BumpCount?
    ensures var x := s.workers[w]; x.op.Create? && Net(x.op, Promised(rnd, s, x)) == x.op.initial
  {
    assert Local(s, s.workers[w]);
    FindAhead(rnd, s, s.workers[w].op.id);
  }

  lemma PublishedMemory(rnd: Rounding, s: State, w: nat)
    requires Coherent(s) && w < |s.workers| && Typed(Step(rnd, s, w)) && s.workers[w].pc.BumpCount?
    requires s.workers[w].op.Create?
    ensures var u := Step(rnd, s, w);
            && |InMemory(u)| == s.count + 1 && InMemory(u) == InMemory(s) + [InMemory(u)[s.count]]
            && InMemory(u)[s.count].balance == s.workers[w].op.initial
  {
    assert TypedWorker(s, s.workers[w]) && Local(s, s.workers[w]);
  }

  lemma TotalAppend(t: Table, a: Account)
    ensures Total(t + [a]) == Total(t) + a.balance
  {
    assert (t + [a])[..|t|] == t;
  }

  /** A step that books without writing books nothing: a verdict under db_lock alone, a withdrawal
      without the funds, a query. */
  lemma BooksNothing(rnd: Rounding, s: State, w: nat)
    requires Coherent(s) && w < |s.workers| && TypedWorker(s, s.workers[w]) && BooksNow(s, s.workers[w])
    requires !s.workers[w].pc.Store? && !s.workers[w].pc.BumpCount?
    ensures Net(s.workers[w].op, Promised(rnd, s, s.workers[w])) == 0.0
  {
    assert Local(s, s.workers[w]);
    if Undecided(s.workers[w].pc) {
      VerdictKnown(rnd, s, w);
    }
  }

  lemma TotalStays(rnd: Rounding, s: State, w: nat)
    requires Coherent(s) && w < |s.workers| && Typed(Step(rnd, s, w))
    requires !s.workers[w].pc.Store? && !s.workers[w].pc.BumpCount?
    ensures InMemory(Step(rnd, s, w)) == InMemory(s)
  {
    assert TypedWorker(s, s.workers[w]);
  }

  /** What the step does to the total is what it books. */
  lemma TotalStep(rnd: Rounding, s: State, w: nat)
    requires Exact(rnd) && Coherent(s) && w < |s.workers| && Enabled(s, w)
    requires Typed(Step(rnd, s, w))
    ensures var u, x := Step(rnd, s, w), s.workers[w];
            TypedWorker(s, x)
            && Total(InMemory(u)) == Total(InMemory(s))
               + if BooksNow(s, x) then Net(x.op, Promised(rnd, s, x)) else 0.0
  {
    var x := s.workers[w];
    assert TypedWorker(s, x);
    if x.pc.Store? {
      TotalStore(rnd, s, w);
    } else if x.pc.BumpCount? {
      TotalPublish(rnd, s, w);
    } else {
      TotalStays(rnd, s, w);
      if BooksNow(s, x) {
        BooksNothing(rnd, s, w);
      }
    }
  }

  lemma RejectedNetsNothing(rnd: Rounding, order: seq<Op>, op: Op)
    requires !ValidArgs(op)
    ensures Net(op, ResultAt(rnd, order + [op], |order|)) == 0.0
  {
  }

  /** What the step does to the books. */
  lemma NetStep(rnd: Rounding, s: State, w: nat)
    requires Coherent(s) && Agrees(rnd, s) && History(s) && w < |s.workers| && Enabled(s, w)
    requires Typed(Step(rnd, s, w))
    ensures var u, x := Step(rnd, s, w), s.workers[w];
            TypedWorker(s, x)
            && NetBooked(rnd, u.order, Books(u))
               == NetBooked(rnd, s.order, Books(s))
                  + if BooksNow(s, x) then Net(x.op, Promised(rnd, s, x)) else 0.0
  {
    var x := s.workers[w];
    BooksStep(rnd, s, w);
    if TakesPlace(x) {
      NetBookedExtend(rnd, s.order, Books(s), x.op, x.pc.Entered?);
      if x.pc.Entered? {
        RejectedNetsNothing(rnd, s.order, x.op);
      }
    } else if BooksNow(s, x) {
      assert AgreesAt(rnd, s, x);
      NetBookedFlip(rnd, s.order, Books(s), x.ticket);
    }
  }

  predicate Conserved(rnd: Rounding, s: State)
    requires Typed(s)
  {
    Total(InMemory(s)) == NetBooked(rnd, s.order, Books(s))
  }

  lemma StepConserved(rnd: Rounding, s: State, w: nat)
    requires Exact(rnd) && Coherent(s) && Agrees(rnd, s) && History(s) && Conserved(rnd, s)
    requires w < |s.workers| && Typed(Step(rnd, s, w))
    ensures Conserved(rnd, Step(rnd, s, w))
  {
    if Enabled(s, w) {
      TotalStep(rnd, s, w);
      NetStep(rnd, s, w);
    }
  }

  /** Conservation: in every reachable state, the middle of operations included, the balances in
      shared memory add up to what the operations that have reached memory brought in. */
  lemma {:induction false} Conservation(rnd: Rounding, todos: seq<seq<Op>>, sched: seq<nat>)
    requires Exact(rnd) && Schedule(sched, |todos|)
    ensures Conserved(rnd, Exec(rnd, todos, sched))
  {
    if sched != [] {
      var s, w := Exec(rnd, todos, sched[..|sched| - 1]), sched[|sched| - 1];
      Conservation(rnd, todos, sched[..|sched| - 1]);
      ExecInvariant(rnd, todos, sched[..|sched| - 1]);
      StepCoherent(rnd, s, w);
      StepConserved(rnd, s, w);
    }
  }
}
