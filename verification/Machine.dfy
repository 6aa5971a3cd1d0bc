/** The account database under any number of workers: one atomic step per lock operation, per slot
    looked at, and per read or write of shared memory. */
module Machine {
  import opened Options
  import opened Accounts

  /** Where a worker is inside account_create, account_deposit, account_withdraw or
      account_get_balance. */
  datatype PC =
    | Idle                                   // between calls
    | Entered                                // called, arguments not tested yet
    | WaitDb                                 // at the lock of db_lock
    | Scan(i: nat)                           // account_find is about to test slot i; holds db_lock
    | CheckFull                              // create, nothing found; holds db_lock
    | WriteId | WriteBalance | WriteActive | BumpCount   // create fills the slot; holds db_lock
    | WaitAccount(i: nat)                    // at the lock of account i; holds db_lock
    | Both(i: nat)                           // holds both locks, about to release db_lock
    | Test(i: nat)                           // withdraw compares; holds the account lock from here on
    | Load(i: nat)                           // reads the balance
    | Store(i: nat, v: real)                 // writes the new balance, computed from v
    | Reload(i: nat)                         // reads the balance again for *new_balance
    | Unlock(i: nat, outcome: Outcome)       // about to release the account lock
    | ReleaseDb(outcome: Outcome)            // about to release db_lock
    | Returning(outcome: Outcome)            // holds nothing

  /** A worker serves its requests one after the other; ticket is the place of the current call in
      the order (meaningful once it has one). */
  datatype Worker = Worker(todo: seq<Op>, op: Op, pc: PC, invokedAt: nat, ticket: nat)

  datatype Return = Return(at: nat, outcome: Outcome)

  /** The history of one call: invoked, took its place in the order, returned. */
  datatype Record = Record(who: nat, invokedAt: nat, takenAt: nat, ret: Option<Return>)

  /** Shared memory and locks, the workers, and the history: the operations in the order in which
      they acquired db_lock (rejected arguments: were rejected), and a record for each. */
  datatype State = State(
    slots: seq<Account>, count: nat,
    dbOwner: Option<nat>, owners: seq<Option<nat>>,
    workers: seq<Worker>,
    order: seq<Op>, records: seq<Record>, now: nat)

  function Init(todos: seq<seq<Op>>): State {
    State(seq(MAX_ACCOUNTS, i => Account([], 0.0, false)), 0,
          None, seq(MAX_ACCOUNTS, i => None),
          seq(|todos|, w requires 0 <= w < |todos| => Worker(todos[w], Query([]), Idle, 0, 0)),
          [], [], 0)
  }

  // ---------- what a program counter means ----------

  predicate HoldsDb(pc: PC) {
    pc.Scan? || pc.CheckFull? || Writing(pc) || pc.WaitAccount? || pc.Both? || pc.ReleaseDb?
  }

  predicate Writing(pc: PC) {
    pc.WriteId? || pc.WriteBalance? || pc.WriteActive? || pc.BumpCount?
  }

  /** The account whose lock is held, -1 for none. */
  function Held(pc: PC): int {
    match pc
    case Both(i) => i
    case Test(i) => i
    case Load(i) => i
    case Store(i, _) => i
    case Reload(i) => i
    case Unlock(i, _) => i
    case _ => -1
  }

  /** The call has its place in the order. */
  predicate Ticketed(pc: PC) {
    !pc.Idle? && !pc.Entered? && !pc.WaitDb?
  }

  // ---------- one step ----------

  /** Sizes and indices for which a step touches no memory outside the table. */
  predicate Typed(s: State) {
    && |s.slots| == |s.owners| == MAX_ACCOUNTS && s.count <= MAX_ACCOUNTS
    && |s.order| == |s.records|
    && forall w :: 0 <= w < |s.workers| ==> TypedWorker(s, s.workers[w])
  }

  predicate TypedWorker(s: State, x: Worker) {
    && (Held(x.pc) >= 0 ==> Held(x.pc) < s.count)
    && (x.pc.WaitAccount? ==> x.pc.i < s.count)
    && (x.pc.Scan? ==> x.pc.i <= s.count)
    && (Writing(x.pc) ==> s.count < MAX_ACCOUNTS)
    && (Ticketed(x.pc) ==> x.ticket < |s.order|)
    && (x.pc.Store? ==> x.op.Deposit? || x.op.Withdraw?)
    && (x.pc.Test? ==> x.op.Withdraw?)
    && (Writing(x.pc) ==> x.op.Create?)
  }

  predicate Enabled(s: State, w: nat)
    requires Typed(s) && w < |s.workers|
  {
    match s.workers[w].pc
    case Idle => s.workers[w].todo != []
    case WaitDb => s.dbOwner == None
    case WaitAccount(i) => s.owners[i] == None
    case _ => true
  }

  function NewBalance(rnd: Rounding, op: Op, v: real): real {
    match op
    case Deposit(_, amount) => rnd(v + amount)
    case Withdraw(_, amount) => rnd(v - amount)
    case _ => v
  }

  /** Control flow. */
  function NextPC(s: State, x: Worker): PC
    requires Typed(s) && TypedWorker(s, x)
  {
    match x.pc
    case Idle => Entered
    case Entered => if ValidArgs(x.op) then WaitDb else Returning(Failed(-1))
    case WaitDb => Scan(0)
    case Scan(i) =>
      if i == s.count then (if x.op.Create? then CheckFull else ReleaseDb(Failed(-2)))
      else if !Matches(s.slots[i], x.op.id) then Scan(i + 1)
      else if x.op.Create? then ReleaseDb(Failed(-2)) else WaitAccount(i)
    case CheckFull => if s.count >= MAX_ACCOUNTS then ReleaseDb(Failed(-3)) else WriteId
    case WriteId => WriteBalance
    case WriteBalance => WriteActive
    case WriteActive => BumpCount
    case BumpCount => ReleaseDb(Failed(0))
    case WaitAccount(i) => Both(i)
    case Both(i) => if x.op.Withdraw? then Test(i) else Load(i)
    case Test(i) => if s.slots[i].balance < x.op.amount then Unlock(i, Failed(-3)) else Load(i)
    case Load(i) =>
      if x.op.Deposit? || x.op.Withdraw? then Store(i, s.slots[i].balance)
      else Unlock(i, Outcome(0, Some(s.slots[i].balance)))
    case Store(i, _) => Reload(i)
    case Reload(i) => Unlock(i, Outcome(0, Some(s.slots[i].balance)))
    case Unlock(_, outcome) => Returning(outcome)
    case ReleaseDb(outcome) => Returning(outcome)
    case Returning(_) => Idle
  }

  /** Writes to the slots. */
  function NextSlots(rnd: Rounding, s: State, x: Worker): seq<Account>
    requires Typed(s) && TypedWorker(s, x)
  {
    match x.pc
    case WriteId => s.slots[s.count := s.slots[s.count].(id := Truncate(x.op.id))]
    case WriteBalance => s.slots[s.count := s.slots[s.count].(balance := x.op.initial)]
    case WriteActive => s.slots[s.count := s.slots[s.count].(active := true)]
    case Store(i, v) => s.slots[i := s.slots[i].(balance := NewBalance(rnd, x.op, v))]
    case _ => s.slots
  }

  function NextCount(s: State, x: Worker): nat {
    if x.pc.BumpCount? then s.count + 1 else s.count
  }

  /** Lock and unlock of db_lock. */
  function NextDbOwner(s: State, w: nat, pc: PC): Option<nat> {
    if pc.WaitDb? then Some(w) else if pc.Both? || pc.ReleaseDb? then None else s.dbOwner
  }

  /** Lock and unlock of the account locks. */
  function NextOwners(s: State, w: nat, x: Worker): seq<Option<nat>>
    requires Typed(s) && TypedWorker(s, x)
  {
    match x.pc
    case WaitAccount(i) => s.owners[i := Some(w)]
    case Unlock(i, _) => s.owners[i := None]
    case _ => s.owners
  }

  /** The step at which a call takes its place in the order. */
  predicate TakesPlace(x: Worker) {
    x.pc.WaitDb? || (x.pc.Entered? && !ValidArgs(x.op))
  }

  function NextRecords(s: State, w: nat, x: Worker): seq<Record>
    requires Typed(s) && TypedWorker(s, x)
  {
    if TakesPlace(x) then s.records + [Record(w, x.invokedAt, s.now, None)]
    else if x.pc.Returning? then
      s.records[x.ticket := s.records[x.ticket].(ret := Some(Return(s.now, x.pc.outcome)))]
    else s.records
  }

  function NextWorker(s: State, x: Worker): Worker
    requires Typed(s) && TypedWorker(s, x) && (x.pc.Idle? ==> x.todo != [])
  {
    if x.pc.Idle? then Worker(x.todo[1..], x.todo[0], Entered, s.now, 0)
    else x.(pc := NextPC(s, x), ticket := if TakesPlace(x) then |s.order| else x.ticket)
  }

  /** The step of worker w; a worker that waits for a lock leaves the state as it is. */
  function Step(rnd: Rounding, s: State, w: nat): State
    requires Typed(s) && w < |s.workers|
  {
    var x := s.workers[w];
    if !Enabled(s, w) then s
    else
      State(NextSlots(rnd, s, x), NextCount(s, x),
            NextDbOwner(s, w, x.pc), NextOwners(s, w, x),
            s.workers[w := NextWorker(s, x)],
            if TakesPlace(x) then s.order + [x.op] else s.order,
            NextRecords(s, w, x), s.now + 1)
  }

  // ---------- locks and local facts ----------

  /** Each lock is owned by exactly the worker whose program counter says so. */
  predicate Locks(s: State)
    requires Typed(s)
  {
    && (s.dbOwner.Some? ==> s.dbOwner.value < |s.workers|)
    && (forall w :: 0 <= w < |s.workers| ==> (HoldsDb(s.workers[w].pc) <==> s.dbOwner == Some(w)))
    && (forall i :: 0 <= i < MAX_ACCOUNTS && s.owners[i].Some? ==> s.owners[i].value < |s.workers|)
    && (forall w, i :: 0 <= w < |s.workers| && 0 <= i < MAX_ACCOUNTS ==>
          (Held(s.workers[w].pc) == i <==> s.owners[i] == Some(w)))
  }

  predicate Missed(s: State, id: Id, n: nat)
    requires Typed(s) && n <= s.count
  {
    forall j :: 0 <= j < n ==> !Matches(s.slots[j], id)
  }

  /** What worker x knows about the shared memory at its program counter. */
  predicate Local(s: State, x: Worker)
    requires Typed(s) && TypedWorker(s, x)
  {
    && (!x.pc.Idle? && !x.pc.Entered? && !x.pc.Returning? ==> ValidArgs(x.op))
    && match x.pc
       case Scan(i) => Missed(s, x.op.id, i)
       case CheckFull => x.op.Create? && Missed(s, x.op.id, s.count)
       case WriteId => Missed(s, x.op.id, s.count)
       case WriteBalance => Missed(s, x.op.id, s.count) && s.slots[s.count].id == Truncate(x.op.id)
       case WriteActive =>
         Missed(s, x.op.id, s.count) && s.slots[s.count].id == Truncate(x.op.id)
         && s.slots[s.count].balance == x.op.initial
       case BumpCount =>
         Missed(s, x.op.id, s.count) && s.slots[s.count] == Account(Truncate(x.op.id), x.op.initial, true)
       case WaitAccount(i) => !x.op.Create? && Missed(s, x.op.id, i) && Matches(s.slots[i], x.op.id)
       case Both(i) => !x.op.Create?
       case Test(i) => true
       case Load(i) => !x.op.Create? && (x.op.Withdraw? ==> s.slots[i].balance >= x.op.amount)
       case Store(i, v) => v == s.slots[i].balance && (x.op.Withdraw? ==> v >= x.op.amount)
       case Reload(i) => x.op.Deposit? || x.op.Withdraw?
       case _ => true
  }

  predicate Coherent(s: State) {
    && Typed(s) && Locks(s)
    && (forall i :: 0 <= i < s.count ==> s.slots[i].active)
    && forall w :: 0 <= w < |s.workers| ==> Local(s, s.workers[w])
  }

  lemma InitCoherent(todos: seq<seq<Op>>)
    ensures Coherent(Init(todos))
  {
  }

  // ---------- every step keeps them ----------

  lemma StepTypedUnderDbLock(rnd: Rounding, s: State, w: nat)
    requires Coherent(s) && w < |s.workers| && HoldsDb(s.workers[w].pc)
    ensures TypedWorker(Step(rnd, s, w), Step(rnd, s, w).workers[w])
  {
    assert TypedWorker(s, s.workers[w]) && Local(s, s.workers[w]);
  }

  lemma StepTypedSelf(rnd: Rounding, s: State, w: nat)
    requires Coherent(s) && w < |s.workers|
    ensures TypedWorker(Step(rnd, s, w), Step(rnd, s, w).workers[w])
  {
    if HoldsDb(s.workers[w].pc) {
      StepTypedUnderDbLock(rnd, s, w);
    } else {
      assert TypedWorker(s, s.workers[w]) && Local(s, s.workers[w]);
    }
  }

  lemma StepTypedOther(rnd: Rounding, s: State, w: nat, v: nat)
    requires Coherent(s) && w < |s.workers| && v < |s.workers| && v != w
    ensures TypedWorker(Step(rnd, s, w), s.workers[v])
  {
    assert TypedWorker(s, s.workers[v]) && TypedWorker(s, s.workers[w]);
    NoSharing(s, w, v);
  }

  lemma StepTyped(rnd: Rounding, s: State, w: nat)
    requires Coherent(s) && w < |s.workers|
    ensures Typed(Step(rnd, s, w))
  {
    var u := Step(rnd, s, w);
    assert TypedWorker(s, s.workers[w]);
    forall v | 0 <= v < |u.workers|
      ensures TypedWorker(u, u.workers[v])
    {
      if v == w {
        StepTypedSelf(rnd, s, w);
      } else {
        StepTypedOther(rnd, s, w, v);
      }
    }
  }

  lemma StepDbLock(rnd: Rounding, s: State, w: nat, v: nat)
    requires Coherent(s) && w < |s.workers| && v < |s.workers|
    ensures HoldsDb(Step(rnd, s, w).workers[v].pc) <==> Step(rnd, s, w).dbOwner == Some(v)
  {
    assert TypedWorker(s, s.workers[w]);
    assert HoldsDb(s.workers[v].pc) <==> s.dbOwner == Some(v);
    assert HoldsDb(s.workers[w].pc) <==> s.dbOwner == Some(w);
  }

  lemma StepOwnAccountLock(rnd: Rounding, s: State, w: nat, i: nat)
    requires Coherent(s) && w < |s.workers| && i < MAX_ACCOUNTS
    ensures i < |Step(rnd, s, w).owners|
    ensures Held(Step(rnd, s, w).workers[w].pc) == i <==> Step(rnd, s, w).owners[i] == Some(w)
  {
    assert TypedWorker(s, s.workers[w]);
    assert Held(s.workers[w].pc) == i <==> s.owners[i] == Some(w);
  }

  lemma StepAccountLock(rnd: Rounding, s: State, w: nat, v: nat, i: nat)
    requires Coherent(s) && w < |s.workers| && v < |s.workers| && i < MAX_ACCOUNTS
    ensures i < |Step(rnd, s, w).owners|
    ensures Held(Step(rnd, s, w).workers[v].pc) == i <==> Step(rnd, s, w).owners[i] == Some(v)
  {
    if v == w {
      StepOwnAccountLock(rnd, s, w, i);
    } else {
      assert TypedWorker(s, s.workers[w]);
      assert Held(s.workers[v].pc) == i <==> s.owners[i] == Some(v);
      assert Held(s.workers[w].pc) == i <==> s.owners[i] == Some(w);
    }
  }

  lemma StepLocks(rnd: Rounding, s: State, w: nat)
    requires Coherent(s) && w < |s.workers| && Typed(Step(rnd, s, w))
    ensures Locks(Step(rnd, s, w))
  {
    var u := Step(rnd, s, w);
    assert TypedWorker(s, s.workers[w]);
    forall v | 0 <= v < |u.workers|
      ensures HoldsDb(u.workers[v].pc) <==> u.dbOwner == Some(v)
    {
      StepDbLock(rnd, s, w, v);
    }
    forall v, i | 0 <= v < |u.workers| && 0 <= i < MAX_ACCOUNTS
      ensures Held(u.workers[v].pc) == i <==> u.owners[i] == Some(v)
    {
      StepAccountLock(rnd, s, w, v, i);
    }
  }

  /** Two workers never hold the same lock. */
  lemma NoSharing(s: State, w: nat, v: nat)
    requires Typed(s) && Locks(s) && w < |s.workers| && v < |s.workers| && w != v
    ensures !(HoldsDb(s.workers[w].pc) && HoldsDb(s.workers[v].pc))
    ensures Held(s.workers[w].pc) >= 0 ==> Held(s.workers[w].pc) != Held(s.workers[v].pc)
  {
    var i := Held(s.workers[w].pc);
    if i >= 0 {
      assert TypedWorker(s, s.workers[w]);
      assert s.owners[i] == Some(w);
    }
  }

  lemma StepLocalWriting(rnd: Rounding, s: State, w: nat)
    requires Coherent(s) && w < |s.workers| && Typed(Step(rnd, s, w)) && Writing(s.workers[w].pc)
    requires TypedWorker(Step(rnd, s, w), Step(rnd, s, w).workers[w])
    ensures Local(Step(rnd, s, w), Step(rnd, s, w).workers[w])
  {
    assert Local(s, s.workers[w]) && TypedWorker(s, s.workers[w]);
  }

  lemma StepLocalUnderDbLock(rnd: Rounding, s: State, w: nat)
    requires Coherent(s) && w < |s.workers| && Typed(Step(rnd, s, w))
    requires HoldsDb(s.workers[w].pc) && !Writing(s.workers[w].pc)
    requires TypedWorker(Step(rnd, s, w), Step(rnd, s, w).workers[w])
    ensures Local(Step(rnd, s, w), Step(rnd, s, w).workers[w])
  {
    assert Local(s, s.workers[w]) && TypedWorker(s, s.workers[w]);
  }

  lemma StepLocalSelf(rnd: Rounding, s: State, w: nat)
    requires Coherent(s) && w < |s.workers| && Typed(Step(rnd, s, w))
    requires TypedWorker(Step(rnd, s, w), Step(rnd, s, w).workers[w])
    ensures Local(Step(rnd, s, w), Step(rnd, s, w).workers[w])
  {
    if Writing(s.workers[w].pc) {
      StepLocalWriting(rnd, s, w);
    } else if HoldsDb(s.workers[w].pc) {
      StepLocalUnderDbLock(rnd, s, w);
    } else {
      assert Local(s, s.workers[w]) && TypedWorker(s, s.workers[w]);
    }
  }

  lemma StepLocalOther(rnd: Rounding, s: State, w: nat, v: nat)
    requires Coherent(s) && w < |s.workers| && v < |s.workers| && v != w && Typed(Step(rnd, s, w))
    requires TypedWorker(Step(rnd, s, w), s.workers[v])
    ensures Local(Step(rnd, s, w), s.workers[v])
  {
    assert Local(s, s.workers[v]) && TypedWorker(s, s.workers[v]) && TypedWorker(s, s.workers[w]);
    NoSharing(s, w, v);
  }

  lemma StepCoherent(rnd: Rounding, s: State, w: nat)
    requires Coherent(s) && w < |s.workers|
    ensures Coherent(Step(rnd, s, w))
  {
    var x, u := s.workers[w], Step(rnd, s, w);
    StepTyped(rnd, s, w);
    StepLocks(rnd, s, w);
    assert TypedWorker(s, x) && Local(s, x);
    forall v | 0 <= v < |u.workers|
      ensures Local(u, u.workers[v])
    {
      assert TypedWorker(u, u.workers[v]);
      if v == w {
        StepLocalSelf(rnd, s, w);
      } else {
        StepLocalOther(rnd, s, w, v);
      }
    }
  }
}
