/** Every interleaving of the workers is equivalent to running the operations one by one in the
    order in which they acquired db_lock. */
module Linearizability {
  import opened Options
  import opened Accounts
  import opened AccountRuns
  import opened Machine

  // ---------- the abstract table runs ahead of the shared memory ----------

  /** The balance c of the account whose lock x holds, once x is done with it. */
  function Pending(rnd: Rounding, x: Worker, c: real): real {
    if (x.pc.Both? || x.pc.Test? || x.pc.Load? || x.pc.Store?) && !x.op.Create?
    then Settle(rnd, x.op, c).0 else c
  }

  function Settled(rnd: Rounding, s: State, i: nat): real
    requires Coherent(s) && i < s.count
  {
    if s.owners[i].None? then s.slots[i].balance
    else Pending(rnd, s.workers[s.owners[i].value], s.slots[i].balance)
  }

  /** The table with the work of every holder of an account lock completed. */
  function Ahead(rnd: Rounding, s: State): (t: Table)
    requires Coherent(s)
    ensures |t| == s.count
    ensures forall i :: 0 <= i < s.count ==> t[i] == s.slots[i].(balance := Settled(rnd, s, i))
  {
    seq(s.count, i requires 0 <= i < s.count => s.slots[i].(balance := Settled(rnd, s, i)))
  }

  /** Holds db_lock, and neither an account lock nor a verdict. */
  predicate Undecided(pc: PC) {
    pc.Scan? || pc.CheckFull? || Writing(pc) || pc.WaitAccount?
  }

  /** ... and with the operation of the holder of db_lock applied, if that one is still undecided. */
  function Abstract(rnd: Rounding, s: State): Table
    requires Coherent(s)
  {
    if s.dbOwner.Some? && Undecided(s.workers[s.dbOwner.value].pc)
    then Apply(rnd, Ahead(rnd, s), s.workers[s.dbOwner.value].op).0
    else Ahead(rnd, s)
  }

  /** What worker x is going to return. */
  function Promised(rnd: Rounding, s: State, x: Worker): Outcome
    requires Coherent(s) && TypedWorker(s, x) && Ticketed(x.pc)
  {
    if Undecided(x.pc) then Apply(rnd, Ahead(rnd, s), x.op).1
    else if x.pc.Unlock? || x.pc.ReleaseDb? || x.pc.Returning? then x.pc.outcome
    else if x.pc.Reload? then Outcome(0, Some(s.slots[x.pc.i].balance))
    else if x.op.Create? then Failed(0)
    else Settle(rnd, x.op, s.slots[Held(x.pc)].balance).1
  }

  /** Shared memory, local values and order tell the same story. */
  predicate Agrees(rnd: Rounding, s: State)
    requires Coherent(s)
  {
    && Abstract(rnd, s) == Run(rnd, s.order)
    && forall w :: 0 <= w < |s.workers| ==> AgreesAt(rnd, s, s.workers[w])
  }

  predicate AgreesAt(rnd: Rounding, s: State, x: Worker)
    requires Coherent(s) && TypedWorker(s, x)
  {
    Ticketed(x.pc) ==>
      s.order[x.ticket] == x.op && Promised(rnd, s, x) == ResultAt(rnd, s.order, x.ticket)
  }

  // ---------- how a step moves the table ahead ----------

  lemma SettledStep(rnd: Rounding, s: State, w: nat, i: nat)
    requires Coherent(s) && w < |s.workers| && i < s.count && Enabled(s, w) && Coherent(Step(rnd, s, w))
    ensures var u := Step(rnd, s, w);
            && i < u.count && u.slots[i].(balance := 0.0) == s.slots[i].(balance := 0.0)
            && (s.workers[w].pc != WaitAccount(i) ==> Settled(rnd, u, i) == Settled(rnd, s, i))
            && (s.workers[w].pc == WaitAccount(i) ==>
                  Settled(rnd, u, i) == Pending(rnd, u.workers[w], s.slots[i].balance)
                  && Settled(rnd, s, i) == s.slots[i].balance)
  {
    var x := s.workers[w];
    assert TypedWorker(s, x) && Local(s, x);
    assert Held(x.pc) == i <==> s.owners[i] == Some(w);
    if s.owners[i].Some? {
      var v := s.owners[i].value;
      assert Held(s.workers[v].pc) == i;
    }
  }

  lemma AheadStep(rnd: Rounding, s: State, w: nat)
    requires Coherent(s) && w < |s.workers| && Enabled(s, w) && Coherent(Step(rnd, s, w))
    requires !s.workers[w].pc.BumpCount? && !s.workers[w].pc.WaitAccount?
    ensures Ahead(rnd, Step(rnd, s, w)) == Ahead(rnd, s)
  {
    var u := Step(rnd, s, w);
    forall i | 0 <= i < s.count
      ensures Ahead(rnd, u)[i] == Ahead(rnd, s)[i]
    {
      SettledStep(rnd, s, w, i);
    }
  }

  lemma FindAhead(rnd: Rounding, s: State, id: Id)
    requires Coherent(s)
    ensures Missed(s, id, s.count) ==> Find(Ahead(rnd, s), id) == -1
    ensures forall i :: 0 <= i < s.count && Missed(s, id, i) && Matches(s.slots[i], id)
                        ==> Find(Ahead(rnd, s), id) == i
  {
    var t, r := Ahead(rnd, s), Find(Ahead(rnd, s), id);
    assert forall i :: 0 <= i < s.count ==> (Matches(t[i], id) <==> Matches(s.slots[i], id));
  }

  /** Taking the account lock moves the operation's effect from the undecided holder of db_lock to
      the holder of the account lock. */
  lemma AheadLock(rnd: Rounding, s: State, w: nat)
    requires Coherent(s) && w < |s.workers| && Enabled(s, w) && Coherent(Step(rnd, s, w))
    requires s.workers[w].pc.WaitAccount?
    ensures Ahead(rnd, Step(rnd, s, w)) == Apply(rnd, Ahead(rnd, s), s.workers[w].op).0
    ensures Apply(rnd, Ahead(rnd, s), s.workers[w].op).1
            == Settle(rnd, s.workers[w].op, s.slots[s.workers[w].pc.i].balance).1
  {
    var u, x := Step(rnd, s, w), s.workers[w];
    assert TypedWorker(s, x) && Local(s, x);
    FindAhead(rnd, s, x.op.id);
    SettledStep(rnd, s, w, x.pc.i);
    forall i | 0 <= i < s.count
      ensures Ahead(rnd, u)[i] == Apply(rnd, Ahead(rnd, s), x.op).0[i]
    {
      SettledStep(rnd, s, w, i);
    }
  }

  /** Raising the count publishes the new account whole. */
  lemma AheadPublish(rnd: Rounding, s: State, w: nat)
    requires Coherent(s) && w < |s.workers| && Coherent(Step(rnd, s, w))
    requires s.workers[w].pc.BumpCount?
    ensures Ahead(rnd, Step(rnd, s, w)) == Apply(rnd, Ahead(rnd, s), s.workers[w].op).0
    ensures Apply(rnd, Ahead(rnd, s), s.workers[w].op).1 == Failed(0)
  {
    var u, x := Step(rnd, s, w), s.workers[w];
    assert TypedWorker(s, x) && Local(s, x);
    FindAhead(rnd, s, x.op.id);
    forall i | 0 <= i < u.count
      ensures Ahead(rnd, u)[i] == Apply(rnd, Ahead(rnd, s), x.op).0[i]
    {
      if i < s.count {
        SettledStep(rnd, s, w, i);
      } else {
        NewSlotFree(s, i);
      }
    }
  }

  /** Nobody holds the lock of a slot that is not published. */
  lemma NewSlotFree(s: State, i: nat)
    requires Coherent(s) && s.count <= i < MAX_ACCOUNTS
    ensures s.owners[i] == None
  {
    forall v | 0 <= v < |s.workers|
      ensures s.owners[i] != Some(v)
    {
      assert TypedWorker(s, s.workers[v]) && Held(s.workers[v].pc) < s.count;
    }
  }

  // ---------- every step keeps the agreement ----------

  /** The verdict that ends a call under db_lock alone is that of the operation on the table ahead. */
  lemma VerdictKnown(rnd: Rounding, s: State, w: nat)
    requires Coherent(s) && w < |s.workers| && Undecided(s.workers[w].pc) && !s.workers[w].pc.BumpCount?
    requires TypedWorker(s, s.workers[w]) && NextPC(s, s.workers[w]).ReleaseDb?
    ensures Apply(rnd, Ahead(rnd, s), s.workers[w].op) == (Ahead(rnd, s), NextPC(s, s.workers[w]).outcome)
  {
    assert Local(s, s.workers[w]);
    FindAhead(rnd, s, s.workers[w].op.id);
  }

  /** A worker that neither holds db_lock nor takes it. */
  lemma AbstractElsewhere(rnd: Rounding, s: State, w: nat)
    requires Coherent(s) && w < |s.workers| && Enabled(s, w) && Coherent(Step(rnd, s, w))
    requires !HoldsDb(s.workers[w].pc) && !s.workers[w].pc.WaitDb?
    ensures Abstract(rnd, Step(rnd, s, w)) == Abstract(rnd, s)
  {
    assert HoldsDb(s.workers[w].pc) <==> s.dbOwner == Some(w);
    AheadStep(rnd, s, w);
  }

  /** The worker that takes db_lock. */
  lemma AbstractEnter(rnd: Rounding, s: State, w: nat)
    requires Coherent(s) && w < |s.workers| && Enabled(s, w) && Coherent(Step(rnd, s, w))
    requires s.workers[w].pc.WaitDb?
    ensures Abstract(rnd, Step(rnd, s, w)) == Apply(rnd, Abstract(rnd, s), s.workers[w].op).0
  {
    AheadStep(rnd, s, w);
  }

  lemma AbstractOfHolder(rnd: Rounding, s: State, w: nat)
    requires Coherent(s) && w < |s.workers| && HoldsDb(s.workers[w].pc)
    ensures Abstract(rnd, s)
            == if Undecided(s.workers[w].pc) then Apply(rnd, Ahead(rnd, s), s.workers[w].op).0 else Ahead(rnd, s)
  {
    assert HoldsDb(s.workers[w].pc) <==> s.dbOwner == Some(w);
  }

  lemma AbstractFree(rnd: Rounding, s: State)
    requires Coherent(s) && s.dbOwner == None
    ensures Abstract(rnd, s) == Ahead(rnd, s)
  {
  }

  /** The holder of db_lock, while it searches or fills a slot. */
  lemma AbstractUndecided(rnd: Rounding, s: State, w: nat)
    requires Coherent(s) && w < |s.workers| && Enabled(s, w) && Coherent(Step(rnd, s, w))
    requires Undecided(s.workers[w].pc) && !s.workers[w].pc.BumpCount? && !s.workers[w].pc.WaitAccount?
    ensures Abstract(rnd, Step(rnd, s, w)) == Abstract(rnd, s)
  {
    assert TypedWorker(s, s.workers[w]);
    AheadStep(rnd, s, w);
    AbstractOfHolder(rnd, s, w);
    AbstractOfHolder(rnd, Step(rnd, s, w), w);
    if NextPC(s, s.workers[w]).ReleaseDb? {
      VerdictKnown(rnd, s, w);
    }
  }

  /** ... when it publishes the slot, or takes the lock of the account that it has found. */
  lemma AbstractSettles(rnd: Rounding, s: State, w: nat)
    requires Coherent(s) && w < |s.workers| && Enabled(s, w) && Coherent(Step(rnd, s, w))
    requires s.workers[w].pc.BumpCount? || s.workers[w].pc.WaitAccount?
    ensures Abstract(rnd, Step(rnd, s, w)) == Abstract(rnd, s)
  {
    AbstractOfHolder(rnd, s, w);
    AbstractOfHolder(rnd, Step(rnd, s, w), w);
    if s.workers[w].pc.WaitAccount? {
      AheadLock(rnd, s, w);
    } else {
      AheadPublish(rnd, s, w);
    }
  }

  /** ... when it gives db_lock back. */
  lemma AbstractLeave(rnd: Rounding, s: State, w: nat)
    requires Coherent(s) && w < |s.workers| && Enabled(s, w) && Coherent(Step(rnd, s, w))
    requires s.workers[w].pc.Both? || s.workers[w].pc.ReleaseDb?
    ensures Abstract(rnd, Step(rnd, s, w)) == Abstract(rnd, s)
  {
    AheadStep(rnd, s, w);
    AbstractOfHolder(rnd, s, w);
    AbstractFree(rnd, Step(rnd, s, w));
  }

  lemma RejectedKeeps(rnd: Rounding, t: Table, op: Op)
    requires !ValidArgs(op)
    ensures Apply(rnd, t, op).0 == t
  {
  }

  /** The abstract table changes exactly when an operation takes its place, and then by that operation. */
  lemma AbstractStep(rnd: Rounding, s: State, w: nat)
    requires Coherent(s) && w < |s.workers| && Enabled(s, w) && Coherent(Step(rnd, s, w))
    ensures Abstract(rnd, Step(rnd, s, w))
            == if TakesPlace(s.workers[w]) then Apply(rnd, Abstract(rnd, s), s.workers[w].op).0
               else Abstract(rnd, s)
  {
    var x := s.workers[w];
    if x.pc.WaitDb? {
      AbstractEnter(rnd, s, w);
    } else if !HoldsDb(x.pc) {
      AbstractElsewhere(rnd, s, w);
      if TakesPlace(x) {
        RejectedKeeps(rnd, Abstract(rnd, s), x.op);
      }
    } else if x.pc.Both? || x.pc.ReleaseDb? {
      AbstractLeave(rnd, s, w);
    } else if x.pc.BumpCount? || x.pc.WaitAccount? {
      AbstractSettles(rnd, s, w);
    } else {
      AbstractUndecided(rnd, s, w);
    }
  }

  lemma PromiseKeptSettling(rnd: Rounding, s: State, w: nat)
    requires Coherent(s) && w < |s.workers| && Enabled(s, w) && Coherent(Step(rnd, s, w))
    requires s.workers[w].pc.BumpCount? || s.workers[w].pc.WaitAccount?
    ensures var u := Step(rnd, s, w);
            TypedWorker(u, u.workers[w]) && Ticketed(u.workers[w].pc)
            && Promised(rnd, u, u.workers[w]) == Promised(rnd, s, s.workers[w])
  {
    assert TypedWorker(s, s.workers[w]) && Local(s, s.workers[w]);
    if s.workers[w].pc.WaitAccount? {
      AheadLock(rnd, s, w);
    } else {
      AheadPublish(rnd, s, w);
    }
  }

  lemma PromiseKeptUndecided(rnd: Rounding, s: State, w: nat)
    requires Coherent(s) && w < |s.workers| && Enabled(s, w) && Coherent(Step(rnd, s, w))
    requires Undecided(s.workers[w].pc) && !s.workers[w].pc.BumpCount? && !s.workers[w].pc.WaitAccount?
    ensures var u := Step(rnd, s, w);
            TypedWorker(u, u.workers[w]) && Ticketed(u.workers[w].pc)
            && Promised(rnd, u, u.workers[w]) == Promised(rnd, s, s.workers[w])
  {
    assert TypedWorker(s, s.workers[w]);
    AheadStep(rnd, s, w);
    if NextPC(s, s.workers[w]).ReleaseDb? {
      VerdictKnown(rnd, s, w);
    }
  }

  lemma PromiseKeptHolder(rnd: Rounding, s: State, w: nat)
    requires Coherent(s) && w < |s.workers| && Enabled(s, w) && Coherent(Step(rnd, s, w))
    requires var pc := s.workers[w].pc; Ticketed(pc) && !Undecided(pc) && !pc.Returning?
    ensures var u := Step(rnd, s, w);
            TypedWorker(u, u.workers[w]) && Ticketed(u.workers[w].pc)
            && Promised(rnd, u, u.workers[w]) == Promised(rnd, s, s.workers[w])
  {
    var u, x := Step(rnd, s, w), s.workers[w];
    assert TypedWorker(s, x) && Local(s, x) && TypedWorker(u, u.workers[w]);
  }

  lemma PromiseKeptOther(rnd: Rounding, s: State, w: nat, v: nat)
    requires Coherent(s) && w < |s.workers| && Enabled(s, w) && Coherent(Step(rnd, s, w))
    requires v < |s.workers| && v != w && Ticketed(s.workers[v].pc)
    ensures var u := Step(rnd, s, w);
            TypedWorker(u, u.workers[v])
            && Promised(rnd, u, u.workers[v]) == Promised(rnd, s, s.workers[v])
  {
    var u, x, y := Step(rnd, s, w), s.workers[w], s.workers[v];
    assert TypedWorker(s, x) && Local(s, x) && TypedWorker(s, y) && TypedWorker(u, u.workers[v]);
    NoSharing(s, w, v);
    if !HoldsDb(x.pc) {
      AheadStep(rnd, s, w);
    }
  }

  /** The promise made when a place is taken is the sequential result. */
  lemma PlaceTaken(rnd: Rounding, s: State, w: nat)
    requires Coherent(s) && w < |s.workers| && Enabled(s, w) && Coherent(Step(rnd, s, w))
    requires TakesPlace(s.workers[w])
    ensures var u := Step(rnd, s, w);
            TypedWorker(u, u.workers[w]) && Ticketed(u.workers[w].pc)
            && Promised(rnd, u, u.workers[w]) == Apply(rnd, Abstract(rnd, s), s.workers[w].op).1
  {
    var u, x := Step(rnd, s, w), s.workers[w];
    assert TypedWorker(s, x) && Local(s, x) && TypedWorker(u, u.workers[w]);
    AheadStep(rnd, s, w);
  }

  lemma PromiseKeptSelf(rnd: Rounding, s: State, w: nat)
    requires Coherent(s) && w < |s.workers| && Enabled(s, w) && Coherent(Step(rnd, s, w))
    requires Ticketed(s.workers[w].pc) && !s.workers[w].pc.Returning?
    ensures var u := Step(rnd, s, w);
            TypedWorker(u, u.workers[w]) && Ticketed(u.workers[w].pc)
            && Promised(rnd, u, u.workers[w]) == Promised(rnd, s, s.workers[w])
  {
    var pc := s.workers[w].pc;
    if pc.BumpCount? || pc.WaitAccount? {
      PromiseKeptSettling(rnd, s, w);
    } else if Undecided(pc) {
      PromiseKeptUndecided(rnd, s, w);
    } else {
      PromiseKeptHolder(rnd, s, w);
    }
  }

  lemma AgreesSelf(rnd: Rounding, s: State, w: nat)
    requires Coherent(s) && Agrees(rnd, s) && w < |s.workers| && Enabled(s, w) && Coherent(Step(rnd, s, w))
    ensures var u := Step(rnd, s, w); TypedWorker(u, u.workers[w]) && AgreesAt(rnd, u, u.workers[w])
  {
    var u, x := Step(rnd, s, w), s.workers[w];
    assert TypedWorker(s, x) && AgreesAt(rnd, s, x) && TypedWorker(u, u.workers[w]);
    RunExtend(rnd, s.order, x.op);
    if TakesPlace(x) {
      PlaceTaken(rnd, s, w);
    } else if Ticketed(x.pc) && !x.pc.Returning? {
      PromiseKeptSelf(rnd, s, w);
    }
  }

  lemma AgreesOther(rnd: Rounding, s: State, w: nat, v: nat)
    requires Coherent(s) && Agrees(rnd, s) && w < |s.workers| && Enabled(s, w) && Coherent(Step(rnd, s, w))
    requires v < |s.workers| && v != w
    ensures var u := Step(rnd, s, w); TypedWorker(u, u.workers[v]) && AgreesAt(rnd, u, u.workers[v])
  {
    var u, y := Step(rnd, s, w), s.workers[v];
    assert TypedWorker(s, y) && AgreesAt(rnd, s, y) && TypedWorker(u, u.workers[v]);
    RunExtend(rnd, s.order, s.workers[w].op);
    if Ticketed(y.pc) {
      PromiseKeptOther(rnd, s, w, v);
    }
  }

  lemma StepAgrees(rnd: Rounding, s: State, w: nat)
    requires Coherent(s) && Agrees(rnd, s) && w < |s.workers| && Coherent(Step(rnd, s, w))
    ensures Agrees(rnd, Step(rnd, s, w))
  {
    var u := Step(rnd, s, w);
    if Enabled(s, w) {
      AbstractStep(rnd, s, w);
      RunExtend(rnd, s.order, s.workers[w].op);
      forall v | 0 <= v < |u.workers|
        ensures TypedWorker(u, u.workers[v]) && AgreesAt(rnd, u, u.workers[v])
      {
        if v == w {
          AgreesSelf(rnd, s, w);
        } else {
          AgreesOther(rnd, s, w, v);
        }
      }
    }
  }
}
