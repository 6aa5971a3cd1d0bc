/** The one-time-password table of otp_server/otp_server.c: an array with first-fit reuse that
    implements a map from account to a stack of codes, newest first. */
module Otp {
  import opened Crypto

  const MAX_OTPS := 100
  const LIFETIME := 300

  type Text = seq<byte>

  /** expiry is written and never read. */
  datatype Entry = Entry(account: Text, otp: Text, expiry: int, used: bool)

  predicate Takable(e: Entry, a: Text) {
    !e.used || e.account == a
  }

  predicate LiveFor(e: Entry, a: Text) {
    e.used && e.account == a
  }

  /** The slot that generate takes, -1 if there is none. */
  function Slot(db: seq<Entry>, a: Text): (r: int)
    ensures -1 <= r < |db|
    ensures r >= 0 ==> Takable(db[r], a)
    ensures forall j :: 0 <= j < (if r < 0 then |db| else r) ==> !Takable(db[j], a)
  {
    if db == [] then -1
    else
      var n := |db| - 1;
      var r := Slot(db[..n], a);
      if r >= 0 then r else if Takable(db[n], a) then n else -1
  }

  /** The slot that verify looks at, -1 if there is none. */
  function Top(db: seq<Entry>, a: Text): (r: int)
    ensures -1 <= r < |db|
    ensures r >= 0 ==> LiveFor(db[r], a)
    ensures forall j :: 0 <= j < (if r < 0 then |db| else r) ==> !LiveFor(db[j], a)
  {
    if db == [] then -1
    else
      var n := |db| - 1;
      var r := Top(db[..n], a);
      if r >= 0 then r else if LiveFor(db[n], a) then n else -1
  }

  function AfterGenerate(db: seq<Entry>, a: Text, code: Text, expiry: int): (seq<Entry>, bool) {
    var slot := Slot(db, a);
    if slot < 0 then (db, false) else (db[slot := Entry(a, code, expiry, true)], true)
  }

  function AfterVerify(db: seq<Entry>, a: Text, otp: Text): (seq<Entry>, bool) {
    var top := Top(db, a);
    if top < 0 || db[top].otp != otp then (db, false) else (db[top := db[top].(used := false)], true)
  }

  /** The decimal digits of n, as printf's %d writes them. */
  function Decimal(n: nat): (d: Text)
    ensures |d| >= 1 && forall i :: 0 <= i < |d| ==> 48 <= d[i] <= 57
  {
    if n < 10 then [48 + n] else Decimal(n / 10) + [48 + n % 10]
  }

  /** The six-digit code made from a value of rand(). */
  function Code(draw: nat): Text {
    Decimal(draw % 900000 + 100000)
  }

  lemma CodeHasSixDigits(draw: nat)
    ensures |Code(draw)| == 6
  {
    var n := draw % 900000 + 100000;
    var n1, n2, n3, n4, n5 := n / 10, n / 100, n / 1000, n / 10000, n / 100000;
    assert n1 / 10 == n2 && n2 / 10 == n3 && n3 / 10 == n4 && n4 / 10 == n5;
    assert |Decimal(n5)| == 1;
    assert |Decimal(n4)| == 2;
    assert |Decimal(n3)| == 3;
    assert |Decimal(n2)| == 4;
    assert |Decimal(n1)| == 5;
  }

  predicate Digits(d: Text) {
    forall i :: 0 <= i < |d| ==> 48 <= d[i] <= 57
  }

  /** The number that a string of decimal digits stands for. */
  function Value(d: Text): int {
    if d == [] then 0 else 10 * Value(d[..|d| - 1]) + (d[|d| - 1] as int - 48)
  }

  lemma {:induction false} DecimalValue(n: nat)
    ensures Value(Decimal(n)) == n
    ensures n > 0 ==> Decimal(n)[0] != 48
  {
    if n >= 10 {
      DecimalValue(n / 10);
      assert Decimal(n)[..|Decimal(n)| - 1] == Decimal(n / 10);
    } else {
      assert Decimal(n)[..0] == [];
    }
  }

  lemma {:induction false} ValueInjective(d: Text, e: Text)
    requires Digits(d) && Digits(e) && |d| == |e| && Value(d) == Value(e)
    ensures d == e
  {
    if d != [] {
      var n := |d| - 1;
      ValueInjective(d[..n], e[..n]);
      assert d == d[..n] + [d[n]] && e == e[..n] + [e[n]];
    }
  }

  /** A six-digit number that does not start with 0. */
  predicate SixDigits(d: Text) {
    |d| == 6 && Digits(d) && d[0] != 48
  }

  function PowerOf10(n: nat): nat {
    if n == 0 then 1 else 10 * PowerOf10(n - 1)
  }

  lemma {:induction false} ValueRange(d: Text)
    requires Digits(d) && d != [] && d[0] != 48
    ensures PowerOf10(|d| - 1) <= Value(d) < PowerOf10(|d|)
  {
    if |d| == 1 {
      assert d[..0] == [];
    } else {
      ValueRange(d[..|d| - 1]);
    }
  }

  /** The code of a draw is the number 100000 + draw modulo 900000, in digits. */
  lemma {:induction false} CodeIsNumber(draw: nat)
    ensures Value(Code(draw)) == 100000 + draw % 900000 && SixDigits(Code(draw))
  {
    CodeHasSixDigits(draw);
    DecimalValue(draw % 900000 + 100000);
  }

  /** Two draws give one code exactly if they agree modulo 900000. */
  lemma {:induction false} SameCodeExactly(draw: nat, other: nat)
    ensures Code(draw) == Code(other) <==> draw % 900000 == other % 900000
  {
    CodeIsNumber(draw);
    CodeIsNumber(other);
  }

  lemma SmallDraw(draw: nat)
    requires draw < 900000
    ensures Value(Code(draw)) == 100000 + draw && SixDigits(Code(draw))
  {
    CodeIsNumber(draw);
  }

  lemma Remainder(draw: nat)
    ensures Code(draw) == Code(draw % 900000)
  {
    SameCodeExactly(draw, draw % 900000);
  }

  lemma SixDigitRange(d: Text)
    requires SixDigits(d)
    ensures 100000 <= Value(d) < 1000000
  {
    ValueRange(d);
    assert PowerOf10(5) == 100000 && PowerOf10(6) == 1000000;
  }

  lemma SixDigitsIsCode(d: Text)
    requires SixDigits(d)
    ensures Value(d) >= 100000 && Code(Value(d) - 100000) == d
  {
    SixDigitRange(d);
    SmallDraw(Value(d) - 100000);
    ValueInjective(d, Code(Value(d) - 100000));
  }

  /** The possible codes are exactly the six-digit numbers. */
  lemma {:induction false} CodesAreExactly(d: Text)
    ensures (exists draw: nat :: Code(draw) == d) <==> SixDigits(d)
  {
    if SixDigits(d) {
      SixDigitsIsCode(d);
    } else if draw: nat :| Code(draw) == d {
      CodeIsNumber(draw);
    }
  }

  /** The codes of the draws below n. */
  function CodesBelow(n: nat): set<Text> {
    if n == 0 then {} else CodesBelow(n - 1) + {Code(n - 1)}
  }

  lemma DifferentCodes(draw: nat, other: nat)
    requires draw < other < 900000
    ensures Code(draw) != Code(other)
  {
    SmallDraw(draw);
    SmallDraw(other);
  }

  lemma {:induction false} NewCode(n: nat, draw: nat)
    requires n <= draw < 900000
    ensures Code(draw) !in CodesBelow(n)
  {
    if n > 0 {
      NewCode(n - 1, draw);
      DifferentCodes(n - 1, draw);
    }
  }

  lemma {:induction false} OldCode(n: nat, draw: nat)
    requires draw < n
    ensures Code(draw) in CodesBelow(n)
  {
    if draw < n - 1 {
      OldCode(n - 1, draw);
    }
  }

  /** The first n draws give n different codes, and any draw gives one of them exactly if its remainder
      is below n: with n = 900000, exactly 900000 codes are possible. */
  lemma {:induction false} CodeCount(n: nat, draw: nat)
    requires n <= 900000
    ensures |CodesBelow(n)| == n
    ensures Code(draw) in CodesBelow(n) <==> draw % 900000 < n
  {
    CodesBelowSize(n);
    var r: nat := draw % 900000;
    Remainder(draw);
    if r < n {
      OldCode(n, r);
    } else {
      NewCode(n, r);
    }
  }

  lemma {:induction false} CodesBelowSize(n: nat)
    requires n <= 900000
    ensures |CodesBelow(n)| == n
  {
    if n > 0 {
      CodesBelowSize(n - 1);
      NewCode(n - 1, n - 1);
    }
  }

  class OtpServer {
    const db: array<Entry>

    constructor ()
      ensures fresh(db) && db.Length == MAX_OTPS && forall i :: 0 <= i < MAX_OTPS ==> !db[i].used
    {
      db := new Entry[MAX_OTPS](i => Entry([], [], 0, false));
    }

    /** The generate branch of handle_client; draw is rand() and now is time(NULL). */
    method Generate(account: Text, draw: nat, now: int) returns (ok: bool, code: Text)
      modifies db
      ensures (db[..], ok) == AfterGenerate(old(db[..]), account, Code(draw), now + LIFETIME)
      ensures code == if ok then Code(draw) else []
      ensures ok ==> SixDigits(code) && Value(code) == 100000 + draw % 900000
      ensures ok ==> exists i :: 0 <= i < db.Length && db[i] == Entry(account, code, now + 300, true)
    {
      var slot := -1;
      for i := 0 to db.Length
        invariant slot == -1 && forall j :: 0 <= j < i ==> !Takable(db[j], account)
      {
        if !db[i].used || db[i].account == account {
          slot := i;
          break;
        }
      }
      if slot >= 0 {
        code := Decimal(draw % 900000 + 100000);
        CodeIsNumber(draw);
        db[slot] := db[slot].(otp := code);
        db[slot] := db[slot].(account := account);
        db[slot] := db[slot].(used := true);
        db[slot] := db[slot].(expiry := now + LIFETIME);
        assert db[..] == old(db[..])[slot := Entry(account, code, now + LIFETIME, true)];
        return true, code;
      }
      return false, [];
    }

    /** The verify branch of handle_client. */
    method Verify(account: Text, otp: Text) returns (found: bool)
      modifies db
      ensures (db[..], found) == AfterVerify(old(db[..]), account, otp)
    {
      found := false;
      for i := 0 to db.Length
        invariant !found && db[..] == old(db[..])
        invariant forall j :: 0 <= j < i ==> !LiveFor(db[j], account)
      {
        if db[i].used && db[i].account == account {
          if db[i].otp == otp {
            found := true;
            db[i] := db[i].(used := false);
          }
          break;
        }
      }
    }
  }

  // ---------- the array is a map from account to stack ----------

  /** The live codes of an account in index order. */
  function Stack(db: seq<Entry>, a: Text): seq<Text> {
    if db == [] then [] else (if LiveFor(db[0], a) then [db[0].otp] else []) + Stack(db[1..], a)
  }

  function Live(db: seq<Entry>): (n: nat)
    ensures n <= |db|
  {
    if db == [] then 0 else (if db[0].used then 1 else 0) + Live(db[1..])
  }

  lemma {:induction false} Append(x: seq<Entry>, y: seq<Entry>, a: Text)
    ensures Stack(x + y, a) == Stack(x, a) + Stack(y, a)
    ensures Live(x + y) == Live(x) + Live(y)
  {
    if x == [] {
      assert x + y == y;
    } else {
      assert (x + y)[1..] == x[1..] + y;
      Append(x[1..], y, a);
    }
  }

  /** An update of one slot changes the stacks at that slot only. */
  lemma UpdateSlot(db: seq<Entry>, i: nat, e: Entry, a: Text)
    requires i < |db|
    ensures Stack(db[i := e], a)
            == Stack(db[..i], a) + (if LiveFor(e, a) then [e.otp] else []) + Stack(db[i + 1..], a)
    ensures Live(db[i := e]) == Live(db[..i]) + (if e.used then 1 else 0) + Live(db[i + 1..])
  {
    assert db[i := e] == db[..i] + ([e] + db[i + 1..]);
    Append(db[..i], [e] + db[i + 1..], a);
    assert ([e] + db[i + 1..])[1..] == db[i + 1..];
  }

  lemma SplitSlot(db: seq<Entry>, i: nat, a: Text)
    requires i < |db|
    ensures Stack(db, a)
            == Stack(db[..i], a) + (if LiveFor(db[i], a) then [db[i].otp] else []) + Stack(db[i + 1..], a)
    ensures Live(db) == Live(db[..i]) + (if db[i].used then 1 else 0) + Live(db[i + 1..])
  {
    assert db[i := db[i]] == db;
    UpdateSlot(db, i, db[i], a);
  }

  lemma {:induction false} EmptyStack(db: seq<Entry>, a: Text)
    ensures Stack(db, a) == [] <==> forall j :: 0 <= j < |db| ==> !LiveFor(db[j], a)
  {
    if db != [] {
      EmptyStack(db[1..], a);
      assert forall j :: 0 <= j < |db| ==> j == 0 || db[j] == db[1..][j - 1];
    }
  }

  lemma {:induction false} FullTable(db: seq<Entry>)
    ensures Live(db) == |db| <==> forall j :: 0 <= j < |db| ==> db[j].used
  {
    if db != [] {
      FullTable(db[1..]);
      assert forall j :: 0 <= j < |db| ==> j == 0 || db[j] == db[1..][j - 1];
    }
  }

  /** Generate overwrites a live entry: no free slot lies below the account's first live one. */
  predicate Replaces(db: seq<Entry>, a: Text) {
    Slot(db, a) >= 0 && db[Slot(db, a)].used
  }

  lemma RefusedExactly(db: seq<Entry>, a: Text)
    ensures Slot(db, a) < 0 <==> Live(db) == |db| && Stack(db, a) == []
  {
    FullTable(db);
    EmptyStack(db, a);
    assert forall j :: 0 <= j < |db| ==> (Takable(db[j], a) <==> !db[j].used || LiveFor(db[j], a));
  }

  lemma OtherStack(db: seq<Entry>, i: nat, e: Entry, b: Text)
    requires i < |db| && !LiveFor(db[i], b) && !LiveFor(e, b)
    ensures Stack(db[i := e], b) == Stack(db, b)
  {
    SplitSlot(db, i, b);
    UpdateSlot(db, i, e, b);
  }

  lemma GenerateAt(db: seq<Entry>, a: Text, e: Entry)
    requires Slot(db, a) >= 0 && LiveFor(e, a)
    ensures var db' := db[Slot(db, a) := e];
            && (Replaces(db, a) ==> Stack(db, a) != [])
            && Stack(db', a) == [e.otp] + (if Replaces(db, a) then Stack(db, a)[1..] else Stack(db, a))
            && Live(db') == Live(db) + if Replaces(db, a) then 0 else 1
  {
    var slot := Slot(db, a);
    var below, above := db[..slot], Stack(db[slot + 1..], a);
    EmptyStack(below, a);
    SplitSlot(db, slot, a);
    UpdateSlot(db, slot, e, a);
    assert Stack(db[slot := e], a) == [e.otp] + above;
    assert Stack(db, a) == if db[slot].used then [db[slot].otp] + above else above;
  }

  /** Generate puts the code on the account's stack, over the top or in its place, touches no other
      account, and is refused exactly when every slot is live for other accounts. */
  lemma {:induction false} GenerateRefines(db: seq<Entry>, a: Text, code: Text, expiry: int, b: Text)
    ensures var (db', ok) := AfterGenerate(db, a, code, expiry);
            && (ok <==> !(Live(db) == |db| && Stack(db, a) == []))
            && (!ok ==> db' == db)
            && (Replaces(db, a) ==> ok && Stack(db, a) != [])
            && (ok ==> Stack(db', a) == [code] + if Replaces(db, a) then Stack(db, a)[1..] else Stack(db, a))
            && (b != a ==> Stack(db', b) == Stack(db, b))
            && Live(db') == Live(db) + if ok && !Replaces(db, a) then 1 else 0
  {
    RefusedExactly(db, a);
    if Slot(db, a) >= 0 {
      GenerateAt(db, a, Entry(a, code, expiry, true));
      if b != a {
        OtherStack(db, Slot(db, a), Entry(a, code, expiry, true), b);
      }
    }
  }

  /** Verify compares with the top of the account's stack and pops it on a match; otherwise, and for
      every other account, nothing changes. */
  lemma {:induction false} VerifyRefines(db: seq<Entry>, a: Text, otp: Text, b: Text)
    ensures var (db', ok) := AfterVerify(db, a, otp);
            && (ok <==> Stack(db, a) != [] && Stack(db, a)[0] == otp)
            && (!ok ==> db' == db)
            && (ok ==> Stack(db', a) == Stack(db, a)[1..])
            && (b != a ==> Stack(db', b) == Stack(db, b))
            && Live(db') == Live(db) - if ok then 1 else 0
  {
    var top := Top(db, a);
    EmptyStack(db, a);
    if top >= 0 {
      EmptyStack(db[..top], a);
      SplitSlot(db, top, a);
      UpdateSlot(db, top, db[top].(used := false), a);
      if b != a {
        OtherStack(db, top, db[top].(used := false), b);
      }
    }
  }

  /** A new code is the account's only one exactly when it met an empty stack or took the place of a
      stack's single code; otherwise an older code is valid again once the new one is used. */
  lemma {:induction false} SupersedesExactly(db: seq<Entry>, a: Text, code: Text, expiry: int)
    requires AfterGenerate(db, a, code, expiry).1
    ensures var used := AfterVerify(AfterGenerate(db, a, code, expiry).0, a, code);
            && used.1
            && (Stack(used.0, a) == [] <==> Stack(db, a) == [] || (|Stack(db, a)| == 1 && Replaces(db, a)))
  {
    GenerateRefines(db, a, code, expiry, a);
    VerifyRefines(AfterGenerate(db, a, code, expiry).0, a, code, a);
  }
}
