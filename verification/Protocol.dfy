/** The packet format of common/src/protocol.c: a 12-byte header (big-endian length, opcode and
    checksum, then a request id) in front of 1024 data bytes. */
module Protocol {
  import opened Options
  import opened Crypto

  const HEADER_SIZE := 12
  const MAX_DATA_SIZE := 1024
  const PACKET_SIZE := 1036

  /** The memory image of a BankingPacket, which is what travels on the connection. */
  type Wire = p: seq<byte> | |p| == PACKET_SIZE witness Zeros(PACKET_SIZE)

  /** Four bytes, for an id of either byte order. */
  type Word = b: seq<byte> | |b| == 4 witness Zeros(4)

  function Htons(x: nat): (b: seq<byte>)
    requires x < 0x1_0000
    ensures |b| == 2 && Ntohs(b) == x
  {
    [x / 0x100, x % 0x100]
  }

  function Ntohs(b: seq<byte>): (x: nat)
    requires |b| == 2
    ensures x < 0x1_0000
  {
    var high: int, low: int := b[0], b[1];
    high * 0x100 + low
  }

  function Htonl(x: nat): (b: seq<byte>)
    requires x < 0x1_0000_0000
    ensures |b| == 4 && Ntohl(b) == x
  {
    Htons(x / 0x1_0000) + Htons(x % 0x1_0000)
  }

  function Ntohl(b: seq<byte>): (x: nat)
    requires |b| == 4
    ensures x < 0x1_0000_0000
  {
    Ntohs(b[..2]) * 0x1_0000 + Ntohs(b[2..])
  }

  function Length(p: Wire): nat { Ntohl(p[..4]) }
  function OpCode(p: Wire): nat { Ntohs(p[4..6]) }
  function StoredChecksum(p: Wire): nat { Ntohs(p[6..8]) }

  /** The lengths for which the payload lies inside the packet. */
  predicate InRange(p: Wire) {
    HEADER_SIZE <= Length(p) <= PACKET_SIZE
  }

  function Payload(p: Wire): seq<byte>
    requires InRange(p)
  {
    p[HEADER_SIZE..Length(p)]
  }

  predicate ChecksumOk(p: Wire)
    requires InRange(p)
  {
    Checksum(Payload(p)) == StoredChecksum(p)
  }

  /** The packet that carries payload d. */
  function Packet(opcode: nat, reqId: Word, d: seq<byte>): Wire
    requires opcode < 0x1_0000 && |d| <= MAX_DATA_SIZE
  {
    Htonl(HEADER_SIZE + |d|) + Htons(opcode) + Htons(Checksum(d)) + reqId + d + Zeros(MAX_DATA_SIZE - |d|)
  }

  /** What a receiver with a buffer of the given size accepts. */
  function Unpack(p: Wire, size: nat): Option<seq<byte>>
    requires InRange(p)
  {
    if ChecksumOk(p) && |Payload(p)| <= size then Some(Payload(p)) else None
  }

  /** The number of bytes that the checksum covers: a size_t difference, which wraps around for a
      length below the header size. */
  function DataLength(p: Wire): nat {
    (Length(p) - HEADER_SIZE) % 0x1_0000_0000_0000_0000
  }

  /** The header fields as a receiver reads them, the most significant bytes first. */
  lemma {:induction false} FieldsRead(p: Wire)
    ensures Length(p) == 0x100_0000 * (p[0] as int) + 0x1_0000 * (p[1] as int) + 0x100 * (p[2] as int) + p[3]
    ensures OpCode(p) == 0x100 * (p[4] as int) + p[5]
    ensures StoredChecksum(p) == 0x100 * (p[6] as int) + p[7]
    ensures DataLength(p) == if Length(p) >= 12 then Length(p) - 12 else Length(p) + 0xFFFF_FFFF_FFFF_FFF4
  {
    var b := p[..4];
    assert b[..2][0] == p[0] && b[..2][1] == p[1] && b[2..][0] == p[2] && b[2..][1] == p[3];
    assert p[4..6][0] == p[4] && p[4..6][1] == p[5] && p[6..8][0] == p[6] && p[6..8][1] == p[7];
  }

  /** The i-th byte behind the header lies in the packet. */
  predicate Inside(i: nat) {
    HEADER_SIZE + i < PACKET_SIZE
  }

  /** Exactly the lengths from 12 to 1036 keep the bytes that the checksum reads inside the packet. */
  lemma ReadsInsideExactly(p: Wire)
    ensures InRange(p) <==> forall i: nat :: i < DataLength(p) ==> Inside(i)
  {
    assert !InRange(p) ==> DataLength(p) > MAX_DATA_SIZE;
    assert !Inside(MAX_DATA_SIZE);
  }

  /** The bytes that the checksum covers, when the memory behind the packet goes on with `beyond` and
      then ends: None if the reads run off it, which is a fault. */
  function Covered(p: Wire, beyond: seq<byte>): Option<seq<byte>> {
    if HEADER_SIZE + DataLength(p) <= PACKET_SIZE + |beyond|
    then Some((p + beyond)[HEADER_SIZE..HEADER_SIZE + DataLength(p)]) else None
  }

  /** The bytes covered are those of the memory from byte 12 of the packet on; a fault exactly if there
      are not enough of them. */
  lemma {:induction false} CoveredExactly(p: Wire, beyond: seq<byte>, i: nat)
    ensures Covered(p, beyond).Some? <==> DataLength(p) <= 1024 + |beyond|
    ensures Covered(p, beyond).Some? ==>
              |Covered(p, beyond).value| == DataLength(p)
              && (i < DataLength(p) ==>
                    Covered(p, beyond).value[i] == if 12 + i < 1036 then p[12 + i] else beyond[i - 1024])
  {
  }

  /** What unpack_request makes of any packet: a fault, a refusal, or the bytes copied. */
  function Received(p: Wire, beyond: seq<byte>, size: nat): Option<Option<seq<byte>>> {
    match Covered(p, beyond)
    case None => None
    case Some(d) => Some(if Checksum(d) == StoredChecksum(p) && |d| <= size then Some(d) else None)
  }

  lemma CoveredInRange(p: Wire, beyond: seq<byte>)
    requires InRange(p)
    ensures DataLength(p) == Length(p) - HEADER_SIZE && Covered(p, beyond) == Some(Payload(p))
  {
    assert (p + beyond)[HEADER_SIZE..Length(p)] == p[HEADER_SIZE..Length(p)];
  }

  /** In range nothing behind the packet matters; out of range a receiver of at most 1024 bytes faults
      or refuses, whatever lies there. */
  lemma ReceivedExactly(p: Wire, beyond: seq<byte>, size: nat)
    requires size <= MAX_DATA_SIZE
    ensures InRange(p) ==> Received(p, beyond, size) == Some(Unpack(p, size))
    ensures !InRange(p) ==> Received(p, beyond, size) == None || Received(p, beyond, size) == Some(None)
  {
    if InRange(p) {
      CoveredInRange(p, beyond);
    }
  }

  /** p with the bytes from position `at` on replaced by src. */
  function Splice(p: seq<byte>, at: nat, src: seq<byte>): (q: seq<byte>)
    requires at + |src| <= |p|
    ensures |q| == |p|
  {
    p[..at] + src + p[at + |src|..]
  }

  /** Filling a zeroed packet field by field gives the packet, whatever the order of the fields. */
  lemma FilledIsPacket(opcode: nat, reqId: Word, d: seq<byte>)
    requires opcode < 0x1_0000 && |d| <= MAX_DATA_SIZE
    ensures var withData := Splice(Splice(Splice(Zeros(PACKET_SIZE), 4, Htons(opcode)), 8, reqId), HEADER_SIZE, d);
            && withData[HEADER_SIZE..HEADER_SIZE + |d|] == d
            && Splice(Splice(withData, 6, Htons(Checksum(d))), 0, Htonl(HEADER_SIZE + |d|)) == Packet(opcode, reqId, d)
  {
    var op, len, sum := Htons(opcode), Htonl(HEADER_SIZE + |d|), Htons(Checksum(d));
    var rest := d + Zeros(MAX_DATA_SIZE - |d|);
    var withOp := Splice(Zeros(PACKET_SIZE), 4, op);
    assert withOp == Zeros(4) + op + Zeros(1030);
    var withId := Splice(withOp, 8, reqId);
    assert withId == Zeros(4) + op + Zeros(2) + reqId + Zeros(MAX_DATA_SIZE);
    var withData := Splice(withId, HEADER_SIZE, d);
    assert withData == Zeros(4) + op + Zeros(2) + reqId + rest;
    var withSum := Splice(withData, 6, sum);
    assert withSum == Zeros(4) + op + sum + reqId + rest;
    assert Splice(withSum, 0, len) == len + op + sum + reqId + rest;
    assert len + op + sum + reqId + rest == Packet(opcode, reqId, d);
  }

  class BankingPacket {
    const bytes: array<byte>

    constructor ()
      ensures fresh(bytes) && bytes.Length == PACKET_SIZE
    {
      bytes := new byte[PACKET_SIZE](i => 0);
    }

    ghost predicate Valid() {
      bytes.Length == PACKET_SIZE
    }

    ghost function Image(): Wire
      requires Valid()
      reads bytes
    {
      bytes[..]
    }

    /** memcpy into the packet. */
    method Put(at: nat, src: seq<byte>)
      requires Valid() && at + |src| <= PACKET_SIZE
      modifies bytes
      ensures bytes[..] == Splice(old(bytes[..]), at, src)
    {
      forall i | 0 <= i < |src| {
        bytes[at + i] := src[i];
      }
    }

    /** verify_packet_checksum, with the memory behind the packet; None is a fault. */
    method VerifyChecksum(beyond: seq<byte>) returns (result: Option<int>)
      requires Valid()
      ensures result == match Covered(Image(), beyond)
                        case None => None
                        case Some(d) => Some(if Checksum(d) == StoredChecksum(Image()) then 0 else -1)
    {
      var image := bytes[..] + beyond;
      var memory := new byte[|image|](i requires 0 <= i < |image| => image[i]);
      assert memory[..] == image;
      assert bytes[..][..4] == bytes[..4] && bytes[..][6..8] == bytes[6..8];
      var dataLength := (Ntohl(bytes[..4]) - HEADER_SIZE) % 0x1_0000_0000_0000_0000;
      if HEADER_SIZE + dataLength > memory.Length {
        return None;
      }
      var calculated := CalculateChecksum(memory, HEADER_SIZE, dataLength);
      assert memory[HEADER_SIZE..HEADER_SIZE + dataLength] == image[HEADER_SIZE..HEADER_SIZE + dataLength];
      return Some(if calculated == Ntohs(bytes[6..8]) then 0 else -1);
    }

    /** pack_request; reqId is the value of rand(). */
    method PackRequest(opcode: nat, reqId: Word, data: array<byte>, size: nat) returns (result: int)
      requires Valid() && data != bytes
      requires opcode < 0x1_0000 && size <= data.Length
      modifies bytes
      ensures result == if size <= MAX_DATA_SIZE then 0 else -1
      ensures size <= MAX_DATA_SIZE ==> Image() == Packet(opcode, reqId, data[..size])
      ensures size <= 1024 ==>
                var p := Image();
                && 0x100_0000 * (p[0] as int) + 0x1_0000 * (p[1] as int) + 0x100 * (p[2] as int) + p[3] == 12 + size
                && 0x100 * (p[4] as int) + p[5] == opcode
                && 0x100 * (p[6] as int) + p[7] == Sum(data[..size]) % 65536
      ensures size > MAX_DATA_SIZE ==> Image() == old(Image())
    {
      if size > MAX_DATA_SIZE {
        return -1;
      }
      forall i | 0 <= i < bytes.Length {
        bytes[i] := 0;
      }
      assert bytes[..] == Zeros(PACKET_SIZE);
      FilledIsPacket(opcode, reqId, data[..size]);
      Put(4, Htons(opcode));
      Put(8, reqId);
      Put(HEADER_SIZE, data[..size]);
      assert bytes[HEADER_SIZE..HEADER_SIZE + size] == bytes[..][HEADER_SIZE..HEADER_SIZE + size];
      var sum := CalculateChecksum(bytes, HEADER_SIZE, size);
      Put(6, Htons(sum));
      Put(0, Htonl(HEADER_SIZE + size));
      HeaderBytes(opcode, reqId, data[..size]);
      result := 0;
    }

    /** unpack_request: copies only the payload, so the rest of the buffer keeps its old content. */
    method UnpackRequest(data: array<byte>, size: nat, beyond: seq<byte>) returns (result: Option<int>)
      requires Valid() && data != bytes && size <= data.Length
      modifies data
      ensures result == match Received(Image(), beyond, size)
                        case None => None
                        case Some(d) => Some(if d.Some? then 0 else -1)
      ensures data[..] == match Received(Image(), beyond, size)
                          case Some(Some(d)) => d + old(data[|d|..])
                          case _ => old(data[..])
    {
      var verified := VerifyChecksum(beyond);
      if verified != Some(0) {
        return verified;
      }
      assert bytes[..][..4] == bytes[..4];
      var actual := (Ntohl(bytes[..4]) - HEADER_SIZE) % 0x1_0000_0000_0000_0000;
      if actual > size {
        return Some(-1);
      }
      var image := bytes[..] + beyond;
      forall i | 0 <= i < actual {
        data[i] := image[HEADER_SIZE + i];
      }
      return Some(0);
    }
  }

  // ---------- round trip ----------

  /** A slice that is the middle of a concatenation. */
  lemma Middle(a: seq<byte>, b: seq<byte>, c: seq<byte>, p: seq<byte>)
    requires p == a + b + c
    ensures p[|a|..|a| + |b|] == b && p[|a| + |b|..] == c
  {
  }

  lemma PacketLength(opcode: nat, reqId: Word, d: seq<byte>)
    requires opcode < 0x1_0000 && |d| <= MAX_DATA_SIZE
    ensures Length(Packet(opcode, reqId, d)) == HEADER_SIZE + |d|
  {
    var rest := Htons(opcode) + Htons(Checksum(d)) + reqId + d + Zeros(MAX_DATA_SIZE - |d|);
    var p := Packet(opcode, reqId, d);
    assert p == [] + Htonl(HEADER_SIZE + |d|) + rest;
    Middle([], Htonl(HEADER_SIZE + |d|), rest, p);
  }

  lemma PacketOpCode(opcode: nat, reqId: Word, d: seq<byte>)
    requires opcode < 0x1_0000 && |d| <= MAX_DATA_SIZE
    ensures OpCode(Packet(opcode, reqId, d)) == opcode
  {
    var rest := Htons(Checksum(d)) + reqId + d + Zeros(MAX_DATA_SIZE - |d|);
    var p := Packet(opcode, reqId, d);
    assert p == Htonl(HEADER_SIZE + |d|) + Htons(opcode) + rest;
    Middle(Htonl(HEADER_SIZE + |d|), Htons(opcode), rest, p);
  }

  lemma PacketChecksum(opcode: nat, reqId: Word, d: seq<byte>)
    requires opcode < 0x1_0000 && |d| <= MAX_DATA_SIZE
    ensures StoredChecksum(Packet(opcode, reqId, d)) == Checksum(d)
  {
    var front, rest := Htonl(HEADER_SIZE + |d|) + Htons(opcode), reqId + d + Zeros(MAX_DATA_SIZE - |d|);
    var p := Packet(opcode, reqId, d);
    assert p == front + Htons(Checksum(d)) + rest;
    Middle(front, Htons(Checksum(d)), rest, p);
  }

  lemma PacketBody(opcode: nat, reqId: Word, d: seq<byte>)
    requires opcode < 0x1_0000 && |d| <= MAX_DATA_SIZE
    ensures var p := Packet(opcode, reqId, d);
            p[8..HEADER_SIZE] == reqId && p[HEADER_SIZE..] == d + Zeros(MAX_DATA_SIZE - |d|)
  {
    var front := Htonl(HEADER_SIZE + |d|) + Htons(opcode) + Htons(Checksum(d));
    var body := d + Zeros(MAX_DATA_SIZE - |d|);
    var p := Packet(opcode, reqId, d);
    assert p == front + reqId + body;
    Middle(front, reqId, body, p);
  }

  lemma {:induction false} PacketFields(opcode: nat, reqId: Word, d: seq<byte>)
    requires opcode < 0x1_0000 && |d| <= MAX_DATA_SIZE
    ensures var p := Packet(opcode, reqId, d);
            && Length(p) == HEADER_SIZE + |d| && OpCode(p) == opcode
            && StoredChecksum(p) == Checksum(d) && p[8..HEADER_SIZE] == reqId
            && p[HEADER_SIZE..] == d + Zeros(MAX_DATA_SIZE - |d|)
  {
    PacketLength(opcode, reqId, d);
    PacketOpCode(opcode, reqId, d);
    PacketChecksum(opcode, reqId, d);
    PacketBody(opcode, reqId, d);
  }

  /** A packed header, byte by byte. */
  lemma {:induction false} HeaderBytes(opcode: nat, reqId: Word, d: seq<byte>)
    requires opcode < 0x1_0000 && |d| <= MAX_DATA_SIZE
    ensures var p := Packet(opcode, reqId, d);
            && 0x100_0000 * (p[0] as int) + 0x1_0000 * (p[1] as int) + 0x100 * (p[2] as int) + p[3] == 12 + |d|
            && 0x100 * (p[4] as int) + p[5] == opcode
            && 0x100 * (p[6] as int) + p[7] == Sum(d) % 65536
            && p[8..12] == reqId
            && p[12..] == d + Zeros(1024 - |d|)
  {
    PacketFields(opcode, reqId, d);
    FieldsRead(Packet(opcode, reqId, d));
  }

  /** unpack_request inverts pack_request for every opcode and payload, and for every buffer size. */
  lemma RoundTrip(opcode: nat, reqId: Word, d: seq<byte>, size: nat)
    requires opcode < 0x1_0000 && |d| <= MAX_DATA_SIZE
    ensures var p := Packet(opcode, reqId, d);
            && InRange(p) && ChecksumOk(p) && OpCode(p) == opcode
            && Unpack(p, size) == if |d| <= size then Some(d) else None
  {
    PacketFields(opcode, reqId, d);
    var p := Packet(opcode, reqId, d);
    assert p[HEADER_SIZE..Length(p)] == p[HEADER_SIZE..][..|d|] == d;
  }

  // ---------- damage ----------

  /** Replacing data bytes and keeping the header: noticed unless the differences cancel modulo 65536. */
  lemma DataChangeUnnoticedExactly(p: Wire, q: Wire)
    requires InRange(p) && ChecksumOk(p) && q[..HEADER_SIZE] == p[..HEADER_SIZE]
    ensures InRange(q)
    ensures ChecksumOk(q) <==> Drift(Payload(p), Payload(q)) % MOD16 == 0
    ensures Changes(Payload(p), Payload(q)) <= 257
            ==> (ChecksumOk(q) <==> Drift(Payload(p), Payload(q)) == 0)
  {
    SameHeader(p, q);
    UnnoticedExactly(Payload(p), Payload(q));
    if Changes(Payload(p), Payload(q)) <= 257 {
      FewChangesUnnoticedExactly(Payload(p), Payload(q));
    }
  }

  lemma SameHeader(p: Wire, q: Wire)
    requires q[..HEADER_SIZE] == p[..HEADER_SIZE]
    ensures Length(q) == Length(p) && StoredChecksum(q) == StoredChecksum(p) && OpCode(q) == OpCode(p)
  {
    assert p[..4] == p[..HEADER_SIZE][..4] && q[..4] == q[..HEADER_SIZE][..4];
    assert p[4..6] == p[..HEADER_SIZE][4..6] && q[4..6] == q[..HEADER_SIZE][4..6];
    assert p[6..8] == p[..HEADER_SIZE][6..8] && q[6..8] == q[..HEADER_SIZE][6..8];
  }

  /** p with another value in its length field. */
  function Relength(p: Wire, length: nat): Wire
    requires length < 0x1_0000_0000
  {
    Htonl(length) + p[4..]
  }

  lemma RelengthFields(opcode: nat, reqId: Word, d: seq<byte>, n: nat)
    requires opcode < 0x1_0000 && |d| <= MAX_DATA_SIZE && n <= MAX_DATA_SIZE
    ensures var q := Relength(Packet(opcode, reqId, d), HEADER_SIZE + n);
            && Length(q) == HEADER_SIZE + n && StoredChecksum(q) == Checksum(d)
            && Payload(q) == (d + Zeros(MAX_DATA_SIZE - |d|))[..n]
  {
    var p := Packet(opcode, reqId, d);
    var q := Relength(p, HEADER_SIZE + n);
    PacketFields(opcode, reqId, d);
    assert q[..4] == Htonl(HEADER_SIZE + n);
    assert q[6..8] == p[6..8];
    assert q[HEADER_SIZE..] == p[HEADER_SIZE..];
    assert q[HEADER_SIZE..HEADER_SIZE + n] == q[HEADER_SIZE..][..n];
  }

  lemma PaddedChecksum(d: seq<byte>, n: nat)
    requires |d| <= n
    ensures Checksum(d + Zeros(n - |d|)) == Checksum(d)
  {
    SumConcat(d, Zeros(n - |d|));
    SumZeros(n - |d|);
  }

  lemma PrefixChecksum(d: seq<byte>, n: nat)
    requires n <= |d|
    ensures Checksum(d[..n]) == Checksum(d) <==> Sum(d[n..]) % MOD16 == 0
  {
    assert d == d[..n] + d[n..];
    SumConcat(d[..n], d[n..]);
    SameResidue(Sum(d[..n]), Sum(d));
  }

  /** A packed payload of exactly the expected size, with another in-range length written into the
      header: a larger length passes the checksum but not the size test, a smaller one is accepted
      exactly when the bytes cut off sum to 0 modulo 65536. */
  lemma AlteredLength(opcode: nat, reqId: Word, d: seq<byte>, n: nat)
    requires opcode < 0x1_0000 && |d| <= MAX_DATA_SIZE && n <= MAX_DATA_SIZE
    ensures var q := Relength(Packet(opcode, reqId, d), HEADER_SIZE + n);
            && InRange(q)
            && (n > |d| ==> ChecksumOk(q) && Unpack(q, |d|) == None)
            && (n <= |d| ==>
                  Unpack(q, |d|) == if Sum(d[n..]) % MOD16 == 0 then Some(d[..n]) else None)
  {
    RelengthFields(opcode, reqId, d, n);
    if n > |d| {
      assert (d + Zeros(MAX_DATA_SIZE - |d|))[..n] == d + Zeros(n - |d|);
      PaddedChecksum(d, n);
    } else {
      assert (d + Zeros(MAX_DATA_SIZE - |d|))[..n] == d[..n];
      PrefixChecksum(d, n);
    }
  }
}
