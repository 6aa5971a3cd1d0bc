/** The 16-bit wrapping byte sum of common/src/crypto.c, and exactly what it detects. */
module Crypto {

  type byte = n: int | 0 <= n < 256

  /** The range of the C type uint16_t. */
  const MOD16 := 65536

  /** The sum of the bytes without wrap-around. */
  function Sum(d: seq<byte>): (s: nat)
    ensures s <= 255 * |d|
  {
    if d == [] then 0 else Sum(d[..|d| - 1]) + d[|d| - 1]
  }

  function Checksum(d: seq<byte>): (c: nat)
    ensures c < MOD16
  {
    Sum(d) % MOD16
  }

  /** Wrapping at every addition is wrapping once. */
  lemma WrapStep(s: nat, b: nat)
    ensures (s % MOD16 + b) % MOD16 == (s + b) % MOD16
  {
    var r := s % MOD16 + b;
    assert s + b == MOD16 * (s / MOD16 + r / MOD16) + r % MOD16;
  }

  lemma ChecksumStep(d: seq<byte>, i: nat)
    requires i < |d|
    ensures (Checksum(d[..i]) + d[i]) % MOD16 == Checksum(d[..i + 1])
  {
    assert d[..i + 1][..i] == d[..i];
    WrapStep(Sum(d[..i]), d[i]);
  }

  /** calculate_checksum: a uint16_t accumulator, wrapped at every addition. */
  method CalculateChecksum(data: array<byte>, start: nat, len: nat) returns (sum: nat)
    requires start + len <= data.Length
    ensures sum == Checksum(data[start..start + len])
  {
    sum := 0;
    ghost var d := data[start..start + len];
    for i := 0 to len
      invariant sum == Checksum(d[..i])
    {
      ChecksumStep(d, i);
      assert d[i] == data[start + i];
      sum := (sum + data[start + i]) % MOD16;
    }
    assert d[..len] == d;
  }

  method VerifyChecksum(received: nat, data: array<byte>, start: nat, len: nat) returns (ok: bool)
    requires start + len <= data.Length
    ensures ok <==> received == Sum(data[start..start + len]) % MOD16
  {
    var calculated := CalculateChecksum(data, start, len);
    ok := received == calculated;
  }

  // ---------- additivity ----------

  lemma {:induction false} SumConcat(a: seq<byte>, b: seq<byte>)
    ensures Sum(a + b) == Sum(a) + Sum(b)
  {
    if b == [] {
      assert a + b == a;
    } else {
      assert (a + b)[..|a + b| - 1] == a + b[..|b| - 1];
      SumConcat(a, b[..|b| - 1]);
    }
  }

  function Zeros(n: nat): (z: seq<byte>)
    ensures |z| == n && forall i :: 0 <= i < n ==> z[i] == 0
  {
    seq(n, i => 0)
  }

  lemma {:induction false} SumZeros(n: nat)
    ensures Sum(Zeros(n)) == 0
  {
    if n > 0 {
      assert Zeros(n)[..n - 1] == Zeros(n - 1);
      SumZeros(n - 1);
    }
  }

  // ---------- what a change of bytes does to the checksum ----------

  /** The signed sum of the byte differences b[i] - a[i]. */
  function Drift(a: seq<byte>, b: seq<byte>): int
    requires |a| == |b|
  {
    if a == [] then 0 else Drift(a[..|a| - 1], b[..|b| - 1]) + b[|b| - 1] - a[|a| - 1]
  }

  /** How many positions differ. */
  function Changes(a: seq<byte>, b: seq<byte>): nat
    requires |a| == |b|
  {
    if a == [] then 0
    else Changes(a[..|a| - 1], b[..|b| - 1]) + (if b[|b| - 1] != a[|a| - 1] then 1 else 0)
  }

  lemma {:induction false} DriftIsSumDifference(a: seq<byte>, b: seq<byte>)
    requires |a| == |b|
    ensures Drift(a, b) == Sum(b) - Sum(a)
    ensures -255 * Changes(a, b) <= Drift(a, b) <= 255 * Changes(a, b)
  {
    if a != [] {
      DriftIsSumDifference(a[..|a| - 1], b[..|b| - 1]);
    }
  }

  lemma SameResidue(x: nat, y: nat)
    ensures x % MOD16 == y % MOD16 <==> (y - x) % MOD16 == 0
  {
    var qx, qy := x / MOD16, y / MOD16;
    assert x == MOD16 * qx + x % MOD16 && y == MOD16 * qy + y % MOD16;
    assert y - x == MOD16 * (qy - qx) + (y % MOD16 - x % MOD16);
  }

  /** A change of bytes goes unnoticed exactly when the differences sum to a multiple of 65536. */
  lemma {:induction false} UnnoticedExactly(a: seq<byte>, b: seq<byte>)
    requires |a| == |b|
    ensures Checksum(a) == Checksum(b) <==> Drift(a, b) % MOD16 == 0
  {
    DriftIsSumDifference(a, b);
    SameResidue(Sum(a), Sum(b));
  }

  /** Up to 257 changed bytes cannot reach 65536, so only changes that cancel out go unnoticed. */
  lemma {:induction false} FewChangesUnnoticedExactly(a: seq<byte>, b: seq<byte>)
    requires |a| == |b| && Changes(a, b) <= 257
    ensures Checksum(a) == Checksum(b) <==> Drift(a, b) == 0
  {
    UnnoticedExactly(a, b);
    DriftIsSumDifference(a, b);
  }

  lemma {:induction false} RisingDrift(a: seq<byte>, b: seq<byte>)
    requires |a| == |b| && forall i :: 0 <= i < |a| ==> a[i] <= b[i]
    ensures Drift(a, b) >= Changes(a, b)
    ensures Changes(a, b) == 0 ==> a == b
  {
    if a != [] {
      RisingDrift(a[..|a| - 1], b[..|b| - 1]);
      assert a == a[..|a| - 1] + [a[|a| - 1]] && b == b[..|b| - 1] + [b[|b| - 1]];
    }
  }

  /** Any increase of at most 257 bytes, and so any change of a single byte, is noticed. */
  lemma {:induction false} RisingChangesNoticed(a: seq<byte>, b: seq<byte>)
    requires |a| == |b| && a != b && Changes(a, b) <= 257
    requires forall i :: 0 <= i < |a| ==> a[i] <= b[i]
    ensures Checksum(a) != Checksum(b)
  {
    FewChangesUnnoticedExactly(a, b);
    RisingDrift(a, b);
  }

  lemma {:induction false} UpdateSum(a: seq<byte>, k: nat, v: byte)
    requires k < |a|
    ensures Drift(a, a[k := v]) == v - a[k]
    ensures Changes(a, a[k := v]) <= 1
  {
    var b := a[k := v];
    if k == |a| - 1 {
      assert b[..|b| - 1] == a[..|a| - 1];
      NoDrift(a[..|a| - 1]);
    } else {
      assert b[..|b| - 1] == a[..|a| - 1][k := v];
      UpdateSum(a[..|a| - 1], k, v);
    }
  }

  lemma {:induction false} NoDrift(a: seq<byte>)
    ensures Drift(a, a) == 0 && Changes(a, a) == 0
  {
    if a != [] {
      NoDrift(a[..|a| - 1]);
    }
  }

  lemma SingleByteNoticed(a: seq<byte>, k: nat, v: byte)
    requires k < |a| && v != a[k]
    ensures Checksum(a) != Checksum(a[k := v])
  {
    UpdateSum(a, k, v);
    FewChangesUnnoticedExactly(a, a[k := v]);
  }

  function Repeat(v: byte, n: nat): (z: seq<byte>)
    ensures |z| == n
  {
    if n == 0 then [] else Repeat(v, n - 1) + [v]
  }

  lemma {:induction false} RepeatFacts(v: byte, n: nat)
    requires v > 0
    ensures Sum(Repeat(v, n)) == v * n
    ensures Changes(Zeros(n), Repeat(v, n)) == n
    ensures forall i :: 0 <= i < n ==> Repeat(v, n)[i] == v
  {
    if n > 0 {
      RepeatFacts(v, n - 1);
      assert Zeros(n)[..n - 1] == Zeros(n - 1);
      assert Repeat(v, n)[..n - 1] == Repeat(v, n - 1);
      assert v * n == v * (n - 1) + v;
    }
  }

  lemma RisingWitness(n: nat) returns (a: seq<byte>, b: seq<byte>)
    ensures |a| == |b| == n + 1 && Changes(a, b) == n + 1
    ensures Sum(a) == 0 && Sum(b) == 255 * n + 1
    ensures forall i :: 0 <= i <= n ==> a[i] < b[i]
  {
    a, b := Zeros(n + 1), Repeat(255, n) + [1];
    RepeatFacts(255, n);
    assert a[..n] == Zeros(n) && b[..n] == Repeat(255, n);
    SumZeros(n + 1);
  }

  /** 257 is the best bound: some increase of 258 bytes goes unnoticed. */
  lemma BoundIsSharp()
    ensures exists a: seq<byte>, b: seq<byte> ::
              |a| == |b| && Changes(a, b) == 258 && Checksum(a) == Checksum(b)
              && forall i :: 0 <= i < |a| ==> a[i] < b[i]
  {
    var a, b := RisingWitness(257);
  }
}
