/** What the replies of the packet loop, and of any number of workers, tell their clients. */
module Replies {
  import opened Options
  import opened Protocol
  import opened Accounts
  import opened Server
  import opened Answers
  import S = Service
  import R = ServiceRuns

  // ---------- one packet loop ----------

  /** The bank's answer, as the response puts it: a create echoes the initial balance, a failed operation
      leaves what was in memory. */
  function Put(op: Op, out: Outcome, e: Env): Response {
    Response(out.status, e.text,
             match op
             case Create(_, initial) => initial
             case _ => if out.balance == None then e.junk else out.balance.value)
  }

  /** The response to a bank request is the one that is due after the bank requests and answers before. */
  lemma {:induction false} LoopAnswers(m: Platform, arrivals: seq<Arrival>, k: nat)
    requires AllReadable(arrivals) && k < |arrivals| && Decode(m, arrivals[k]).Bank?
    ensures var ops := BankOps(m, arrivals[..k]);
            var outs, op := Results(m.rnd, ops), Decode(m, arrivals[k]).op;
            ResponseAt(m, Start(), arrivals, k)
            == Put(op, Due(m.rnd, Told(ops, outs), Made(ops, outs), op), arrivals[k].env)
  {
    StateIsRunOfRequests(m, arrivals[..k]);
    NextAnswer(m.rnd, BankOps(m, arrivals[..k]), Decode(m, arrivals[k]).op);
  }

  // ---------- the place of a packet among the bank requests ----------

  /** The k-th packet, a bank request, is the n-th of them. */
  lemma {:induction false} BankPlace(m: Platform, log: seq<Arrival>, k: nat)
    requires AllReadable(log) && k < |log| && Decode(m, log[k]).Bank?
    ensures var ops, n := BankOps(m, log), |BankOps(m, log[..k])|;
            n < |ops| && ops[..n] == BankOps(m, log[..k]) && ops[n] == Decode(m, log[k]).op
  {
    var init := log[..|log| - 1];
    LastBankOp(m, log);
    if k < |log| - 1 {
      BankPlace(m, init, k);
      assert init[..k] == log[..k];
    }
  }

  lemma LastBankOp(m: Platform, log: seq<Arrival>)
    requires AllReadable(log) && log != []
    ensures var n := |log| - 1; BankOps(m, log) == BankOps(m, log[..n]) + BankOpOf(Decode(m, log[n]))
  {
  }

  /** The n-th answer of the run is what the k-th packet is answered. */
  lemma AnswerPlace(m: Platform, log: seq<Arrival>, k: nat)
    requires AllReadable(log) && k < |log| && Decode(m, log[k]).Bank?
    ensures var ops, n := BankOps(m, log), |BankOps(m, log[..k])|;
            n < |ops| && ops[n] == Decode(m, log[k]).op
            && ResponseAt(m, Start(), log, k) == Put(ops[n], Results(m.rnd, ops)[n], log[k].env)
  {
    var ops, n := BankOps(m, log), |BankOps(m, log[..k])|;
    BankPlace(m, log, k);
    LoopAnswers(m, log, k);
    RunIsConsistent(m.rnd, ops);
    ResultsPrefix(m.rnd, ops, n);
    IsDue(m.rnd, ops, Results(m.rnd, ops), n);
  }

  // ---------- any number of workers ----------

  /** The client reads from the packet the status and the bytes of the balance. */
  predicate TellsBank(m: Platform, wire: Wire, op: Op, out: Outcome) {
    InRange(wire)
    && match Unpack(wire, 268)
       case None => false
       case Some(d) =>
         && |d| == 268 && StatusOf(d) == out.status
         && (op.Create? ==> BalanceOf(d) == Fit(m.enc(op.initial), 8))
         && (!op.Create? && out.balance.Some? ==> BalanceOf(d) == Fit(m.enc(out.balance.value), 8))
  }

  /** The reply to the k-th packet, if it is a bank request and has been answered, tells the answer of
      that request. */
  predicate BankTold(m: Platform, o: S.Office, outs: seq<Outcome>, k: nat)
    requires S.Shaped(o) && AllReadable(o.log) && k < |o.log| && |outs| == |BankOps(m, o.log)|
  {
    o.notes[k].answer.Some? && PlainText(o.log[k].env) && Decode(m, o.log[k]).Bank? ==>
      var n := |BankOps(m, o.log[..k])|;
      n < |outs| && BankOps(m, o.log)[n] == Decode(m, o.log[k]).op
      && TellsBank(m, o.notes[k].answer.value.wire, Decode(m, o.log[k]).op, outs[n])
  }

  lemma ReplyTellsBank(m: Platform, o: S.Office, k: nat)
    requires S.Inv(m, o) && k < |o.log|
    ensures BankTold(m, o, Results(m.rnd, BankOps(m, o.log)), k)
  {
    R.NotesTell(m, o);
    if o.notes[k].answer.Some? && PlainText(o.log[k].env) && Decode(m, o.log[k]).Bank? {
      AnswerPlace(m, o.log, k);
      RepliesCarryResponses(m, o.log, k);
    }
  }

  /** What the clients of any number of workers read from the replies to their bank requests are answers
      that follow, each from the requests and answers placed before it. */
  lemma {:induction false} ServerAnswers(m: Platform, workers: nat, events: seq<S.Event>)
    returns (outs: seq<Outcome>)
    requires R.Within(events, workers)
    ensures var o := R.Serve(m, workers, events);
            && Consistent(m.rnd, BankOps(m, o.log), outs)
            && forall k :: 0 <= k < |o.log| ==> BankTold(m, o, outs, k)
  {
    var o := R.Serve(m, workers, events);
    outs := Results(m.rnd, BankOps(m, o.log));
    RunIsConsistent(m.rnd, BankOps(m, o.log));
    forall k | 0 <= k < |o.log|
      ensures BankTold(m, o, outs, k)
    {
      ReplyTellsBank(m, o, k);
    }
  }

  /** What the client reads from the reply to a one-time-password request. */
  predicate PasswordTold(m: Platform, o: S.Office, k: nat)
    requires S.Shaped(o) && AllReadable(o.log) && k < |o.log|
  {
    o.notes[k].answer.Some? && PlainText(o.log[k].env) ==>
      var wire := o.notes[k].answer.value.wire;
      && InRange(wire) && Unpack(wire, 268).Some? && |Unpack(wire, 268).value| == 268
      && var d := Unpack(wire, 268).value;
         PasswordAnswer(Passwords(m, o.log[..k]), Passwords(m, o.log[..k + 1]), Decode(m, o.log[k]), o.log[k].env,
                        Response(StatusOf(d), MessageOf(d), 0.0))
  }

  lemma ReplyTellsPassword(m: Platform, o: S.Office, k: nat)
    requires S.Inv(m, o) && k < |o.log|
    ensures PasswordTold(m, o, k)
  {
    R.NotesTell(m, o);
    if o.notes[k].answer.Some? && PlainText(o.log[k].env) {
      RepliesCarryResponses(m, o.log, k);
      PasswordsAnswered(m, o.log, k);
    }
  }

  /** ... and from the replies to their one-time-password requests: a login is accepted exactly with the
      newest code of its account, a code is refused exactly if all slots are live for others, on the table
      that the requests placed before it leave. */
  lemma {:induction false} ServerPasswords(m: Platform, workers: nat, events: seq<S.Event>)
    requires R.Within(events, workers)
    ensures var o := R.Serve(m, workers, events);
            && o.otps == Passwords(m, o.log)
            && forall k :: 0 <= k < |o.log| ==> PasswordTold(m, o, k)
  {
    var o := R.Serve(m, workers, events);
    StateIsRunOfRequests(m, o.log);
    forall k | 0 <= k < |o.log|
      ensures PasswordTold(m, o, k)
    {
      ReplyTellsPassword(m, o, k);
    }
  }
}
