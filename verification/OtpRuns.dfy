/** Runs of the one-time-password server, which serves one request at a time. */
module OtpRuns {
  import opened Otp

  datatype OtpOp =
    | Generate(account: Text, code: Text, expiry: int)
    | Verify(account: Text, otp: Text)

  function After(db: seq<Entry>, op: OtpOp): (seq<Entry>, bool) {
    match op
    case Generate(a, code, expiry) => AfterGenerate(db, a, code, expiry)
    case Verify(a, otp) => AfterVerify(db, a, otp)
  }

  function Blank(): (db: seq<Entry>)
    ensures |db| == MAX_OTPS && forall i :: 0 <= i < MAX_OTPS ==> !db[i].used
  {
    seq(MAX_OTPS, i => Entry([], [], 0, false))
  }

  function Serve(db: seq<Entry>, ops: seq<OtpOp>): (r: seq<Entry>)
    ensures |r| == |db|
  {
    if ops == [] then db else After(Serve(db, ops[..|ops| - 1]), ops[|ops| - 1]).0
  }

  /** The k-th request of a run from the blank table succeeds. */
  predicate Accepted(ops: seq<OtpOp>, k: nat)
    requires k < |ops|
  {
    After(Serve(Blank(), ops[..k]), ops[k]).1
  }

  predicate Login(ops: seq<OtpOp>, k: nat)
    requires k < |ops|
  {
    ops[k].Verify? && Accepted(ops, k)
  }

  lemma Prefix(ops: seq<OtpOp>, k: nat)
    requires k < |ops| - 1
    ensures var init := ops[..|ops| - 1];
            init[k] == ops[k] && init[..k] == ops[..k] && (Accepted(init, k) <==> Accepted(ops, k))
  {
    assert ops[..|ops| - 1][..k] == ops[..k];
  }

  // ---------- which generate filled a slot ----------

  /** For every slot, the index of the generate that last filled it (-1: none). */
  function Sources(ops: seq<OtpOp>): (src: seq<int>)
    ensures |src| == MAX_OTPS
  {
    if ops == [] then seq(MAX_OTPS, i => -1)
    else
      var n := |ops| - 1;
      var src, op := Sources(ops[..n]), ops[n];
      var slot := Slot(Serve(Blank(), ops[..n]), op.account);
      if op.Generate? && slot >= 0 then src[slot := n] else src
  }

  predicate IssuedAs(ops: seq<OtpOp>, e: Entry, g: int) {
    0 <= g < |ops| && ops[g] == Generate(e.account, e.otp, e.expiry) && Accepted(ops, g)
  }

  predicate SlotIssued(ops: seq<OtpOp>, i: nat)
    requires i < MAX_OTPS
  {
    Serve(Blank(), ops)[i].used ==> IssuedAs(ops, Serve(Blank(), ops)[i], Sources(ops)[i])
  }

  /** What the last request does to slot i and its source. */
  lemma SlotStep(ops: seq<OtpOp>, i: nat)
    requires ops != [] && i < MAX_OTPS
    ensures var n := |ops| - 1;
            var op, before, after := ops[n], Serve(Blank(), ops[..n]), Serve(Blank(), ops);
            if op.Generate? && Slot(before, op.account) == i
            then after[i] == Entry(op.account, op.code, op.expiry, true) && Accepted(ops, n) && Sources(ops)[i] == n
            else (after[i].used ==> after[i] == before[i]) && Sources(ops)[i] == Sources(ops[..n])[i]
  {
  }

  /** Every live slot holds what its source issued. */
  lemma {:induction false} LiveSlotIssued(ops: seq<OtpOp>, i: nat)
    requires i < MAX_OTPS
    ensures SlotIssued(ops, i)
    ensures -1 <= Sources(ops)[i] < |ops|
  {
    if ops != [] {
      var n := |ops| - 1;
      SlotStep(ops, i);
      LiveSlotIssued(ops[..n], i);
      var g := Sources(ops[..n])[i];
      if 0 <= g {
        Prefix(ops, g);
      }
    }
  }

  /** Different live slots have different sources; of two live slots of one account the lower was
      issued later. */
  lemma {:induction false} SourcesOrdered(ops: seq<OtpOp>, i: nat, j: nat)
    requires i < j < MAX_OTPS
    requires var db := Serve(Blank(), ops); db[i].used && db[j].used
    ensures Sources(ops)[i] != Sources(ops)[j]
    ensures var db := Serve(Blank(), ops);
            db[i].account == db[j].account ==> Sources(ops)[i] > Sources(ops)[j]
  {
    if ops != [] {
      var n := |ops| - 1;
      var before, op := Serve(Blank(), ops[..n]), ops[n];
      LiveSlotIssued(ops[..n], i);
      LiveSlotIssued(ops[..n], j);
      if before[i].used && before[j].used {
        SourcesOrdered(ops[..n], i, j);
      }
      if op.Generate? && Slot(before, op.account) == j {
        assert !Takable(before[i], op.account);
      }
    }
  }

  // ---------- one-time use ----------

  /** The generate whose code the k-th request consumes. */
  function Match(ops: seq<OtpOp>, k: nat): int
    requires k < |ops| && Login(ops, k)
  {
    Sources(ops[..k])[Top(Serve(Blank(), ops[..k]), ops[k].account)]
  }

  lemma MatchIsEarlier(ops: seq<OtpOp>, k: nat)
    requires k < |ops| && Login(ops, k)
    ensures var g := Match(ops, k);
            && 0 <= g < k && Accepted(ops, g)
            && ops[g].Generate? && ops[g].account == ops[k].account && ops[g].code == ops[k].otp
  {
    var before := ops[..k];
    LiveSlotIssued(before, Top(Serve(Blank(), before), ops[k].account));
    var g := Match(ops, k);
    assert before[..g] == ops[..g];
  }

  /** The slot that a verify consumes is the only one with its source. */
  lemma JustConsumed(ops: seq<OtpOp>, i: nat)
    requires ops != [] && Login(ops, |ops| - 1) && i < MAX_OTPS && Serve(Blank(), ops)[i].used
    ensures Sources(ops)[i] != Match(ops, |ops| - 1)
  {
    var n := |ops| - 1;
    var top := Top(Serve(Blank(), ops[..n]), ops[n].account);
    if i < top {
      SourcesOrdered(ops[..n], i, top);
    } else {
      SourcesOrdered(ops[..n], top, i);
    }
  }

  /** A consumed code lives in no slot any more. */
  lemma {:induction false} ConsumedIsGone(ops: seq<OtpOp>, k: nat, i: nat)
    requires k < |ops| && Login(ops, k) && i < MAX_OTPS && Serve(Blank(), ops)[i].used
    ensures Sources(ops)[i] != Match(ops, k)
  {
    var n := |ops| - 1;
    if k == n {
      JustConsumed(ops, i);
    } else {
      MatchInPrefix(ops, k);
      if Sources(ops)[i] != n {
        SlotStep(ops, i);
        ConsumedIsGone(ops[..n], k, i);
      }
    }
  }

  lemma MatchInPrefix(ops: seq<OtpOp>, k: nat)
    requires k < |ops| - 1 && Login(ops, k)
    ensures Login(ops[..|ops| - 1], k) && Match(ops[..|ops| - 1], k) == Match(ops, k) < |ops| - 1
  {
    Prefix(ops, k);
    MatchIsEarlier(ops, k);
  }

  /** One-time use: successful verifies are matched, without sharing, to earlier successful generates
      of the same account and code. */
  lemma OneTimeUse(ops: seq<OtpOp>, j: nat, k: nat)
    requires j < k < |ops| && Login(ops, j) && Login(ops, k)
    ensures Match(ops, j) != Match(ops, k)
    ensures 0 <= Match(ops, j) < j && 0 <= Match(ops, k) < k
  {
    var before := ops[..k];
    assert before[..j] == ops[..j];
    MatchIsEarlier(ops, j);
    MatchIsEarlier(ops, k);
    ConsumedIsGone(before, j, Top(Serve(Blank(), before), ops[k].account));
  }

  // ---------- accounting ----------

  /** Accepted generates for account a. */
  function Issued(ops: seq<OtpOp>, a: Text): nat {
    if ops == [] then 0
    else
      var n := |ops| - 1;
      Issued(ops[..n], a) + if ops[n].Generate? && ops[n].account == a && Accepted(ops, n) then 1 else 0
  }

  /** ... of which these overwrote the account's newest code. */
  function Replaced(ops: seq<OtpOp>, a: Text): nat {
    if ops == [] then 0
    else
      var n := |ops| - 1;
      Replaced(ops[..n], a)
      + if ops[n].Generate? && ops[n].account == a && Replaces(Serve(Blank(), ops[..n]), a) then 1 else 0
  }

  /** Successful verifies for account a. */
  function Logins(ops: seq<OtpOp>, a: Text): nat {
    if ops == [] then 0
    else
      var n := |ops| - 1;
      Logins(ops[..n], a) + if ops[n].account == a && Login(ops, n) then 1 else 0
  }

  lemma {:induction false} BlankStacks(db: seq<Entry>, a: Text)
    requires forall i :: 0 <= i < |db| ==> !db[i].used
    ensures Stack(db, a) == [] && Live(db) == 0
  {
    if db != [] {
      BlankStacks(db[1..], a);
    }
  }

  /** Every code issued to an account was overwritten, was used, or is still on its stack; so an
      account never logs in more often than codes were issued to it. */
  lemma {:induction false} CodesAccountedFor(ops: seq<OtpOp>, a: Text)
    ensures Issued(ops, a) == Replaced(ops, a) + Logins(ops, a) + |Stack(Serve(Blank(), ops), a)|
    ensures Logins(ops, a) <= Issued(ops, a)
  {
    if ops == [] {
      BlankStacks(Blank(), a);
    } else {
      CodesAccountedFor(ops[..|ops| - 1], a);
      CodesStep(ops, a);
    }
  }

  lemma CodesStep(ops: seq<OtpOp>, a: Text)
    requires ops != []
    ensures var init := ops[..|ops| - 1];
            Issued(ops, a) - Replaced(ops, a) - Logins(ops, a) - |Stack(Serve(Blank(), ops), a)|
            == Issued(init, a) - Replaced(init, a) - Logins(init, a) - |Stack(Serve(Blank(), init), a)|
  {
    var n := |ops| - 1;
    var before := Serve(Blank(), ops[..n]);
    match ops[n] {
      case Generate(b, code, expiry) => GenerateRefines(before, b, code, expiry, a);
      case Verify(b, otp) => VerifyRefines(before, b, otp, a);
    }
  }

  /** Generates that took a free slot. */
  function Pushed(ops: seq<OtpOp>): nat {
    if ops == [] then 0
    else
      var n := |ops| - 1;
      Pushed(ops[..n])
      + if ops[n].Generate? && Accepted(ops, n) && !Replaces(Serve(Blank(), ops[..n]), ops[n].account)
        then 1 else 0
  }

  function AllLogins(ops: seq<OtpOp>): nat {
    if ops == [] then 0 else AllLogins(ops[..|ops| - 1]) + if Login(ops, |ops| - 1) then 1 else 0
  }

  /** The live slots are the pushes less the logins, at most 100; a generate is refused exactly when
      all 100 are live for other accounts. */
  lemma {:induction false} SlotsAccountedFor(ops: seq<OtpOp>)
    ensures Live(Serve(Blank(), ops)) == Pushed(ops) - AllLogins(ops)
    ensures Live(Serve(Blank(), ops)) <= MAX_OTPS
    ensures forall k :: 0 <= k < |ops| && ops[k].Generate? ==>
              (!Accepted(ops, k) <==>
                Live(Serve(Blank(), ops[..k])) == MAX_OTPS
                && Stack(Serve(Blank(), ops[..k]), ops[k].account) == [])
  {
    forall k | 0 <= k < |ops| && ops[k].Generate?
      ensures !Accepted(ops, k) <==>
                Live(Serve(Blank(), ops[..k])) == MAX_OTPS
                && Stack(Serve(Blank(), ops[..k]), ops[k].account) == []
    {
      RefusedWhenFull(ops, k);
    }
    if ops == [] {
      BlankStacks(Blank(), []);
    } else {
      SlotsAccountedFor(ops[..|ops| - 1]);
      LiveStep(ops);
    }
  }

  lemma RefusedWhenFull(ops: seq<OtpOp>, k: nat)
    requires k < |ops| && ops[k].Generate?
    ensures !Accepted(ops, k) <==>
              Live(Serve(Blank(), ops[..k])) == MAX_OTPS
              && Stack(Serve(Blank(), ops[..k]), ops[k].account) == []
  {
    var a := ops[k].account;
    GenerateRefines(Serve(Blank(), ops[..k]), a, ops[k].code, ops[k].expiry, a);
  }

  lemma LiveStep(ops: seq<OtpOp>)
    requires ops != []
    ensures var init := ops[..|ops| - 1];
            Live(Serve(Blank(), ops)) - Pushed(ops) + AllLogins(ops)
            == Live(Serve(Blank(), init)) - Pushed(init) + AllLogins(init)
  {
    var n := |ops| - 1;
    var before := Serve(Blank(), ops[..n]);
    match ops[n] {
      case Generate(b, code, expiry) => GenerateRefines(before, b, code, expiry, b);
      case Verify(b, otp) => VerifyRefines(before, b, otp, b);
    }
  }

  // ---------- freshness and isolation ----------

  /** Neither a new code for a nor the right guess for it. */
  predicate Idles(op: OtpOp, a: Text, code: Text) {
    op.account != a || (op.Verify? && op.otp != code)
  }

  /** Whatever other accounts do, and whatever wrong guesses are made, the stack of a stays. */
  lemma {:induction false} StackIsolated(db: seq<Entry>, ops: seq<OtpOp>, a: Text, code: Text)
    requires Stack(db, a) != [] && Stack(db, a)[0] == code
    requires forall k :: 0 <= k < |ops| ==> Idles(ops[k], a, code)
    ensures Stack(Serve(db, ops), a) == Stack(db, a)
  {
    if ops != [] {
      var n := |ops| - 1;
      StackIsolated(db, ops[..n], a, code);
      match ops[n] {
        case Generate(b, c, expiry) => GenerateRefines(Serve(db, ops[..n]), b, c, expiry, a);
        case Verify(b, otp) => VerifyRefines(Serve(db, ops[..n]), b, otp, a);
      }
    }
  }

  /** After a successful generate the new code stays verifiable under any such requests; the right
      guess then removes exactly that entry, and the same guess again fails unless the account's next
      older code happens to be the same. */
  lemma {:induction false} NewestCodeStaysFresh(db: seq<Entry>, a: Text, code: Text, expiry: int, ops: seq<OtpOp>)
    requires AfterGenerate(db, a, code, expiry).1
    requires forall k :: 0 <= k < |ops| ==> Idles(ops[k], a, code)
    ensures var issued := AfterGenerate(db, a, code, expiry).0;
            var (used, ok) := AfterVerify(Serve(issued, ops), a, code);
            && ok && Stack(issued, a) == [code] + Stack(used, a)
            && Live(used) == Live(Serve(issued, ops)) - 1
            && (AfterVerify(used, a, code).1 <==> Stack(used, a) != [] && Stack(used, a)[0] == code)
  {
    var issued := AfterGenerate(db, a, code, expiry).0;
    GenerateRefines(db, a, code, expiry, a);
    StackIsolated(issued, ops, a, code);
    VerifyRefines(Serve(issued, ops), a, code, a);
    VerifyRefines(AfterVerify(Serve(issued, ops), a, code).0, a, code, a);
  }

  lemma ServeNext(ops: seq<OtpOp>, k: nat) returns (next: seq<Entry>)
    requires k < |ops|
    ensures next == Serve(Blank(), ops[..k + 1]) == After(Serve(Blank(), ops[..k]), ops[k]).0
  {
    next := Serve(Blank(), ops[..k + 1]);
    assert ops[..k + 1][..k] == ops[..k];
  }

  /** After the request of another account is used up, a second code goes below the first. */
  lemma SecondCodeBelow(a: Text, b: Text, c: Text, old1: Text, new1: Text, t: int)
    requires a != b
    ensures var ops := [Generate(b, c, t), Generate(a, old1, t), Verify(b, c), Generate(a, new1, t)];
            Serve(Blank(), ops) == Blank()[0 := Entry(a, new1, t, true)][1 := Entry(a, old1, t, true)]
  {
    var ops := [Generate(b, c, t), Generate(a, old1, t), Verify(b, c), Generate(a, new1, t)];
    var s0 := Serve(Blank(), ops[..0]);
    assert Slot(s0, b) == 0 by { assert Takable(s0[0], b); }
    var s1 := ServeNext(ops, 0);
    assert s1 == s0[0 := Entry(b, c, t, true)];
    assert Slot(s1, a) == 1 by { assert Takable(s1[1], a) && !Takable(s1[0], a); }
    var s2 := ServeNext(ops, 1);
    assert s2 == s1[1 := Entry(a, old1, t, true)];
    assert Top(s2, b) == 0 by { assert LiveFor(s2[0], b); }
    var s3 := ServeNext(ops, 2);
    assert s3 == s2[0 := Entry(b, c, t, false)];
    assert Slot(s3, a) == 0 by { assert Takable(s3[0], a); }
    var s4 := ServeNext(ops, 3);
    assert s4 == s3[0 := Entry(a, new1, t, true)];
    assert ops[..4] == ops;
  }

  /** One live entry per account is not an invariant: with an older account's slot freed in between,
      a second code is put below the first, and both are accepted. */
  lemma OlderCodeRevives(a: Text, b: Text, c: Text, old1: Text, new1: Text, t: int)
    requires a != b
    ensures var ops := [Generate(b, c, t), Generate(a, old1, t), Verify(b, c), Generate(a, new1, t),
                        Verify(a, new1), Verify(a, old1)];
            Login(ops, 4) && Login(ops, 5)
  {
    var first := [Generate(b, c, t), Generate(a, old1, t), Verify(b, c), Generate(a, new1, t)];
    var ops := [Generate(b, c, t), Generate(a, old1, t), Verify(b, c), Generate(a, new1, t),
                Verify(a, new1), Verify(a, old1)];
    SecondCodeBelow(a, b, c, old1, new1, t);
    assert ops[..4] == first;
    var s4 := Serve(Blank(), first);
    assert Top(s4, a) == 0 by { assert LiveFor(s4[0], a); }
    var s5 := ServeNext(ops, 4);
    assert s5 == s4[0 := Entry(a, new1, t, false)];
    assert Top(s5, a) == 1 by { assert LiveFor(s5[1], a) && !LiveFor(s5[0], a); }
  }
}
