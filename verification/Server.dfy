/** One worker of server/banking_server.c: decode a packet, dispatch, answer. */
module Server {
  import opened Options
  import opened Crypto
  import opened Protocol
  import opened Accounts
  import opened AccountRuns
  import opened Otp
  import OtpRuns

  const OP_CREATE_ACCOUNT := 1
  const OP_DEPOSIT := 2
  const OP_WITHDRAW := 3
  const OP_BALANCE := 4
  const OP_REQ_OTP := 5
  const OP_LOGIN := 6
  const OP_RESPONSE := 255
  const STATUS_SUCCESS := 0
  const STATUS_ERROR := -1

  const ID_SIZE := 20
  const OTP_SIZE := 10
  const DOUBLE_SIZE := 8
  const MESSAGE_SIZE := 256
  const RESPONSE_SIZE := 268

  /** How the platform rounds, reads and writes doubles. */
  datatype Platform = Platform(rnd: Rounding, dec: seq<byte> -> real, enc: real -> seq<byte>)

  // ---------- C memory ----------

  /** The C string that starts at the first byte. */
  function CStr(b: seq<byte>): (s: seq<byte>)
    ensures s <= b && 0 !in s
  {
    if b == [] || b[0] == 0 then [] else [b[0]] + CStr(b[1..])
  }

  /** It ends at the first NUL, or with the bytes. */
  lemma {:induction false} CStrEnds(b: seq<byte>)
    ensures CStr(b) == b || (|CStr(b)| < |b| && b[|CStr(b)|] == 0)
  {
    if b != [] && b[0] != 0 {
      CStrEnds(b[1..]);
    }
  }

  /** A field of n bytes into which s was copied: cut off or filled up with zeros. */
  function Fit(s: seq<byte>, n: nat): (f: seq<byte>)
    ensures |f| == n
  {
    if |s| <= n then s + Zeros(n - |s|) else s[..n]
  }

  function Clip(s: seq<byte>, n: nat): (c: seq<byte>)
    ensures c <= s && |c| == if |s| <= n then |s| else n
  {
    if |s| <= n then s else s[..n]
  }

  lemma {:induction false} CStrTerminated(s: seq<byte>, rest: seq<byte>)
    requires 0 !in s && (rest == [] || rest[0] == 0)
    ensures CStr(s + rest) == s
  {
    if s == [] {
      assert s + rest == rest;
    } else {
      assert (s + rest)[1..] == s[1..] + rest;
      CStrTerminated(s[1..], rest);
    }
  }

  /** A string shorter than its field is read back, whatever follows the field. */
  lemma CStrField(s: seq<byte>, n: nat, rest: seq<byte>)
    requires 0 !in s && |s| < n
    ensures CStr(Fit(s, n) + rest) == s
  {
    assert Fit(s, n) + rest == s + (Zeros(n - |s|) + rest);
    CStrTerminated(s, Zeros(n - |s|) + rest);
  }

  // ---------- requests ----------

  /** sizeof the request struct of an opcode, None for an opcode the switch does not know. */
  function StructSize(opcode: nat): Option<nat> {
    if opcode == OP_CREATE_ACCOUNT || opcode == OP_DEPOSIT || opcode == OP_WITHDRAW then Some(ID_SIZE + DOUBLE_SIZE)
    else if opcode == OP_BALANCE || opcode == OP_REQ_OTP then Some(ID_SIZE)
    else if opcode == OP_LOGIN then Some(ID_SIZE + OTP_SIZE)
    else None
  }

  datatype Request =
    | Bank(op: Op)
    | NewOtp(account: Text)
    | CheckOtp(account: Text, otp: Text)
    | Invalid                            // unknown opcode, or refused by unpack_request

  /** A request struct whose bytes are req. */
  function Interpret(m: Platform, opcode: nat, req: seq<byte>): Request
    requires StructSize(opcode) == Some(|req|)
  {
    if opcode == OP_CREATE_ACCOUNT then Bank(Create(CStr(req), m.dec(req[ID_SIZE..])))
    else if opcode == OP_DEPOSIT then Bank(Deposit(CStr(req), m.dec(req[ID_SIZE..])))
    else if opcode == OP_WITHDRAW then Bank(Withdraw(CStr(req), m.dec(req[ID_SIZE..])))
    else if opcode == OP_BALANCE then Bank(Query(CStr(req)))
    else if opcode == OP_REQ_OTP then NewOtp(Clip(CStr(req), 31))
    else CheckOtp(Clip(CStr(req), 31), Clip(CStr(req[ID_SIZE..]), 7))
  }

  /** The opcode and the struct with which a client asks for a request. */
  function OpcodeFor(r: Request): nat
    requires !r.Invalid?
  {
    match r
    case Bank(Create(_, _)) => OP_CREATE_ACCOUNT
    case Bank(Deposit(_, _)) => OP_DEPOSIT
    case Bank(Withdraw(_, _)) => OP_WITHDRAW
    case Bank(Query(_)) => OP_BALANCE
    case NewOtp(_) => OP_REQ_OTP
    case CheckOtp(_, _) => OP_LOGIN
  }

  function StructFor(m: Platform, r: Request): (b: seq<byte>)
    requires !r.Invalid?
    ensures StructSize(OpcodeFor(r)) == Some(|b|)
  {
    match r
    case Bank(Create(id, initial)) => Fit(id, ID_SIZE) + Fit(m.enc(initial), DOUBLE_SIZE)
    case Bank(Deposit(id, amount)) => Fit(id, ID_SIZE) + Fit(m.enc(amount), DOUBLE_SIZE)
    case Bank(Withdraw(id, amount)) => Fit(id, ID_SIZE) + Fit(m.enc(amount), DOUBLE_SIZE)
    case Bank(Query(id)) => Fit(id, ID_SIZE)
    case NewOtp(account) => Fit(account, ID_SIZE)
    case CheckOtp(account, otp) => Fit(account, ID_SIZE) + Fit(otp, OTP_SIZE)
  }

  predicate ReadsBack(m: Platform, x: real) {
    m.dec(Fit(m.enc(x), DOUBLE_SIZE)) == x
  }

  predicate FieldText(s: seq<byte>, n: nat) {
    0 !in s && |s| <= n
  }

  /** Ids, codes and amounts that their fields can hold. */
  predicate Sendable(m: Platform, r: Request) {
    match r
    case Bank(op) =>
      FieldText(op.id, ID_SIZE - 1)
      && (op.Create? ==> ReadsBack(m, op.initial)) && (op.Deposit? || op.Withdraw? ==> ReadsBack(m, op.amount))
    case NewOtp(account) => FieldText(account, ID_SIZE - 1)
    case CheckOtp(account, otp) => FieldText(account, ID_SIZE - 1) && FieldText(otp, 7)
    case Invalid => false
  }

  lemma FieldsReadBack(id: Id, rest: seq<byte>)
    requires FieldText(id, ID_SIZE - 1)
    ensures CStr(Fit(id, ID_SIZE) + rest) == id && CStr(Fit(id, ID_SIZE)) == id
    ensures (Fit(id, ID_SIZE) + rest)[ID_SIZE..] == rest
  {
    CStrField(id, ID_SIZE, rest);
    CStrField(id, ID_SIZE, []);
    assert Fit(id, ID_SIZE) + [] == Fit(id, ID_SIZE);
  }

  lemma BankRoundTrip(m: Platform, op: Op)
    requires Sendable(m, Bank(op))
    ensures Interpret(m, OpcodeFor(Bank(op)), StructFor(m, Bank(op))) == Bank(op)
  {
    match op {
      case Create(id, initial) => FieldsReadBack(id, Fit(m.enc(initial), DOUBLE_SIZE));
      case Deposit(id, amount) => FieldsReadBack(id, Fit(m.enc(amount), DOUBLE_SIZE));
      case Withdraw(id, amount) => FieldsReadBack(id, Fit(m.enc(amount), DOUBLE_SIZE));
      case Query(id) => FieldsReadBack(id, []);
    }
  }

  /** What a client asks for is what the server understands, for all six operations. */
  lemma RequestRoundTrip(m: Platform, r: Request)
    requires Sendable(m, r)
    ensures Interpret(m, OpcodeFor(r), StructFor(m, r)) == r
  {
    match r {
      case Bank(op) => BankRoundTrip(m, op);
      case NewOtp(account) => FieldsReadBack(account, []);
      case CheckOtp(account, otp) =>
        FieldsReadBack(account, Fit(otp, OTP_SIZE));
        CStrField(otp, OTP_SIZE, []);
        assert Fit(otp, OTP_SIZE) + [] == Fit(otp, OTP_SIZE);
    }
  }

  /** What a request finds in uninitialised memory, in rand() and on the clock, and the printed
      message of the replies whose wording is not modelled. */
  datatype Env = Env(junk: real, draw: nat, now: int, text: seq<byte>)

  /** What the worker reads from the connection; the memory behind the packet; the request struct
      before unpack_request fills it; and the id that the reply gets from rand(). */
  datatype Arrival = Arrival(data: seq<byte>, beyond: seq<byte>, stack: seq<byte>, env: Env, reqId: Word)

  predicate FullSize(a: Arrival) {
    |a.data| == PACKET_SIZE
  }

  /** A packet of the right size on which the checksum does not run off the memory. */
  predicate Readable(a: Arrival) {
    FullSize(a) && Covered(a.data, a.beyond).Some?
  }

  /** The request in a packet; a payload shorter than its struct leaves the tail as it was. */
  function Decode(m: Platform, a: Arrival): Request
    requires FullSize(a)
  {
    if !InRange(a.data) then Invalid
    else
      match StructSize(OpCode(a.data))
      case None => Invalid
      case Some(size) =>
        match Unpack(a.data, size)
        case None => Invalid
        case Some(d) => Interpret(m, OpCode(a.data), d + Fit(a.stack, size)[|d|..])
  }

  /** unpack_request into a struct finds what Decode reads, out-of-range lengths included. */
  lemma DecodeReceived(m: Platform, a: Arrival, size: nat)
    requires Readable(a) && StructSize(OpCode(a.data)) == Some(size)
    ensures Received(a.data, a.beyond, size).Some?
    ensures match Received(a.data, a.beyond, size).value
            case None => Decode(m, a) == Invalid
            case Some(d) =>
              |d| <= size && Decode(m, a) == Interpret(m, OpCode(a.data), d + Fit(a.stack, size)[|d|..])
  {
    ReceivedExactly(a.data, a.beyond, size);
  }

  /** A packet asks for nothing exactly when the bytes its length covers, wherever they lie, have
      another checksum, the opcode is unknown, or they are too many. */
  lemma RejectedExactly(m: Platform, a: Arrival)
    requires Readable(a)
    ensures Decode(m, a) == Invalid <==>
            var covered := Covered(a.data, a.beyond).value;
            Checksum(covered) != StoredChecksum(a.data) || StructSize(OpCode(a.data)) == None
            || |covered| > StructSize(OpCode(a.data)).value
  {
    if InRange(a.data) {
      CoveredInRange(a.data, a.beyond);
    } else {
      TooLong(a);
    }
  }

  lemma TooLong(a: Arrival)
    requires Readable(a) && !InRange(a.data)
    ensures |Covered(a.data, a.beyond).value| > 1024
  {
  }

  /** A packed struct is read as it was sent. */
  lemma PacketDecodes(m: Platform, opcode: nat, payload: seq<byte>, reqId: Word, a: Arrival)
    requires StructSize(opcode) == Some(|payload|) && a.data == Packet(opcode, reqId, payload)
    ensures Readable(a) && Decode(m, a) == Interpret(m, opcode, payload)
  {
    RoundTrip(opcode, reqId, payload, |payload|);
    CoveredInRange(a.data, a.beyond);
    assert payload + Fit(a.stack, |payload|)[|payload|..] == payload;
  }

  /** An id that fills its field is read on into the amount, and stops at once if the amount's first
      byte is 0: a create packet can ask for an id of 20 characters. */
  lemma LongIdArrives(m: Platform, id: Id, amount: seq<byte>, reqId: Word, a: Arrival)
    requires |id| == ID_SIZE && 0 !in id && |amount| == DOUBLE_SIZE && amount[0] == 0
    requires a.data == Packet(OP_CREATE_ACCOUNT, reqId, id + amount)
    ensures Readable(a) && Decode(m, a) == Bank(Create(id, m.dec(amount))) && |id| == ACCOUNT_ID_LEN
  {
    PacketDecodes(m, OP_CREATE_ACCOUNT, id + amount, reqId, a);
    CStrTerminated(id, amount);
    assert (id + amount)[ID_SIZE..] == amount;
  }

  // ---------- requests, byte by byte ----------

  /** The packet says in its first bytes that it has n < 244 bytes of data and which opcode, and its
      checksum is right. */
  predicate Says(p: Wire, n: nat, opcode: nat) {
    && n < 244 && p[..6] == [0, 0, 0, 12 + n, 0, opcode]
    && 0x100 * (p[6] as int) + p[7] == Sum(p[12..12 + n]) % 65536
  }

  lemma SaidIsRead(p: Wire, n: nat, opcode: nat)
    requires opcode < 256 && Says(p, n, opcode)
    ensures InRange(p) && OpCode(p) == opcode && Payload(p) == p[12..12 + n]
    ensures forall size :: n <= size ==> Unpack(p, size) == Some(p[12..12 + n])
  {
    FieldsRead(p);
    assert forall i :: 0 <= i < 6 ==> p[i] == p[..6][i];
  }

  /** The structs of the six requests, at their places in the packet. */
  lemma {:induction false} PacketsMean(m: Platform, a: Arrival)
    requires FullSize(a)
    ensures var p := a.data;
            && (Says(p, 28, 1) ==> Decode(m, a) == Bank(Create(CStr(p[12..40]), m.dec(p[32..40]))))
            && (Says(p, 28, 2) ==> Decode(m, a) == Bank(Deposit(CStr(p[12..40]), m.dec(p[32..40]))))
            && (Says(p, 28, 3) ==> Decode(m, a) == Bank(Withdraw(CStr(p[12..40]), m.dec(p[32..40]))))
            && (Says(p, 20, 4) ==> Decode(m, a) == Bank(Query(CStr(p[12..32]))))
            && (Says(p, 20, 5) ==> Decode(m, a) == NewOtp(CStr(p[12..32])))
            && (Says(p, 30, 6) ==>
                  var otp := CStr(p[32..42]);
                  Decode(m, a) == CheckOtp(CStr(p[12..42]), if |otp| <= 7 then otp else otp[..7]))
  {
    var p := a.data;
    if Says(p, 28, 1) {
      BankStruct(m, a, 1);
    } else if Says(p, 28, 2) {
      BankStruct(m, a, 2);
    } else if Says(p, 28, 3) {
      BankStruct(m, a, 3);
    } else if Says(p, 20, 4) {
      StructMeans(m, a, 20, 4);
    } else if Says(p, 20, 5) {
      StructMeans(m, a, 20, 5);
    } else if Says(p, 30, 6) {
      StructMeans(m, a, 30, 6);
      assert p[12..42][20..] == p[32..42];
    }
  }

  lemma StructMeans(m: Platform, a: Arrival, n: nat, opcode: nat)
    requires FullSize(a) && opcode < 256 && Says(a.data, n, opcode) && StructSize(opcode) == Some(n)
    ensures Decode(m, a) == Interpret(m, opcode, a.data[12..12 + n])
  {
    SaidIsRead(a.data, n, opcode);
    assert a.data[12..12 + n] + Fit(a.stack, n)[n..] == a.data[12..12 + n];
  }

  /** A payload shorter than its struct: the rest of the struct is what was on the stack. */
  lemma {:induction false} ShortStruct(m: Platform, a: Arrival, n: nat, opcode: nat)
    requires FullSize(a) && opcode < 256 && Says(a.data, n, opcode)
    requires StructSize(opcode) == Some(|a.stack|) && n <= |a.stack|
    ensures Decode(m, a) == Interpret(m, opcode, a.data[12..12 + n] + a.stack[n..])
  {
    SaidIsRead(a.data, n, opcode);
    assert Fit(a.stack, |a.stack|) == a.stack;
  }

  lemma BankStruct(m: Platform, a: Arrival, opcode: nat)
    requires FullSize(a) && 1 <= opcode <= 3 && Says(a.data, 28, opcode)
    ensures Decode(m, a) == Interpret(m, opcode, a.data[12..40]) && a.data[12..40][20..] == a.data[32..40]
  {
    StructMeans(m, a, 28, opcode);
  }

  // ---------- responses ----------

  datatype Response = Response(status: int, message: seq<byte>, balance: real)

  /** "OTP Generated: " */
  const OTP_PREFIX: seq<byte> := [79, 84, 80, 32, 71, 101, 110, 101, 114, 97, 116, 101, 100, 58, 32]

  /** A C int in memory, least significant byte first. */
  function Int32(x: int): (b: seq<byte>)
    ensures |b| == 4
  {
    var u := x % 0x1_0000_0000;
    [u % 0x100, u / 0x100 % 0x100, u / 0x1_0000 % 0x100, u / 0x100_0000]
  }

  function FromInt32(b: seq<byte>): int
    requires |b| == 4
  {
    var b0: int, b1: int, b2: int, b3: int := b[0], b[1], b[2], b[3];
    var u := b0 + 0x100 * b1 + 0x1_0000 * b2 + 0x100_0000 * b3;
    if u < 0x8000_0000 then u else u - 0x1_0000_0000
  }

  lemma Int32RoundTrip(x: int)
    requires -0x8000_0000 <= x < 0x8000_0000
    ensures FromInt32(Int32(x)) == x
  {
    var u := x % 0x1_0000_0000;
    var h := u / 0x100;
    var g := h / 0x100;
    assert g == u / 0x1_0000 && g / 0x100 == u / 0x100_0000;
    assert u == u % 0x100 + 0x100 * h && h == h % 0x100 + 0x100 * g && g == g % 0x100 + 0x100 * (g / 0x100);
  }

  /** The packed BankingResponse struct. */
  function Encode(m: Platform, r: Response): (b: seq<byte>)
    ensures |b| == RESPONSE_SIZE
  {
    Int32(r.status) + Fit(Clip(r.message, MESSAGE_SIZE - 1), MESSAGE_SIZE) + Fit(m.enc(r.balance), DOUBLE_SIZE)
  }

  /** The packet that answers with r. */
  function Reply(m: Platform, r: Response, reqId: Word): Wire {
    Packet(OP_RESPONSE, reqId, Encode(m, r))
  }

  /** What the client reads from a reply: status, message, and the bytes of the balance. */
  function StatusOf(b: seq<byte>): int requires |b| == RESPONSE_SIZE { FromInt32(b[..4]) }
  function MessageOf(b: seq<byte>): seq<byte> requires |b| == RESPONSE_SIZE { CStr(b[4..4 + MESSAGE_SIZE]) }
  function BalanceOf(b: seq<byte>): seq<byte> requires |b| == RESPONSE_SIZE { b[4 + MESSAGE_SIZE..] }

  /** unpack_response inverts pack_response, down to the fields. */
  lemma ReplyRoundTrip(m: Platform, r: Response, reqId: Word)
    requires -0x8000_0000 <= r.status < 0x8000_0000
    requires 0 !in r.message && |r.message| < MESSAGE_SIZE
    ensures var p := Reply(m, r, reqId);
            && InRange(p) && Unpack(p, RESPONSE_SIZE) == Some(Encode(m, r))
            && StatusOf(Encode(m, r)) == r.status
            && MessageOf(Encode(m, r)) == r.message
            && BalanceOf(Encode(m, r)) == Fit(m.enc(r.balance), DOUBLE_SIZE)
  {
    RoundTrip(OP_RESPONSE, reqId, Encode(m, r), RESPONSE_SIZE);
    var b := Encode(m, r);
    assert b[..4] == Int32(r.status);
    Int32RoundTrip(r.status);
    assert b[4..4 + MESSAGE_SIZE] == Fit(r.message, MESSAGE_SIZE) + [];
    CStrField(r.message, MESSAGE_SIZE, []);
  }

  /** A reply, byte by byte: the header; the status, least significant byte first; the message and a
      NUL; the balance. */
  lemma {:induction false} ReplyBytes(m: Platform, r: Response, reqId: Word)
    requires -3 <= r.status <= 0 && |r.message| < 256
    ensures var p := Reply(m, r, reqId);
            && p[..6] == [0, 0, 1, 24, 0, 255]
            && 0x100 * (p[6] as int) + p[7] == Sum(p[12..280]) % 65536 && p[8..12] == reqId
            && p[12..16] == (if r.status == 0 then [0, 0, 0, 0] else [256 + r.status, 255, 255, 255])
            && p[16..16 + |r.message|] == r.message && p[16 + |r.message|] == 0
            && p[272..280] == Fit(m.enc(r.balance), 8) && (|m.enc(r.balance)| == 8 ==> p[272..280] == m.enc(r.balance))
  {
    var b := Encode(m, r);
    var p := Reply(m, r, reqId);
    HeaderBytes(OP_RESPONSE, reqId, b);
    ReplyHeader(p);
    EncodedFields(m, r);
    assert p[12..280] == p[12..][..268] == b;
    assert p[12..16] == b[..4] && p[16..272] == b[4..260] && p[272..280] == b[260..];
    assert p[16..16 + |r.message|] == p[16..272][..|r.message|] && p[16 + |r.message|] == p[16..272][|r.message|];
  }

  lemma ReplyHeader(p: Wire)
    requires 0x100_0000 * (p[0] as int) + 0x1_0000 * (p[1] as int) + 0x100 * (p[2] as int) + p[3] == 280
    requires 0x100 * (p[4] as int) + p[5] == 255
    ensures p[..6] == [0, 0, 1, 24, 0, 255]
  {
  }

  lemma EncodedFields(m: Platform, r: Response)
    requires -3 <= r.status <= 0 && |r.message| < 256
    ensures var b := Encode(m, r);
            && b[..4] == (if r.status == 0 then [0, 0, 0, 0] else [256 + r.status, 255, 255, 255])
            && b[4..260][..|r.message|] == r.message && b[4..260][|r.message|] == 0
            && b[260..] == Fit(m.enc(r.balance), 8)
  {
    var b := Encode(m, r);
    StatusBytes(r.status);
    assert b[..4] == Int32(r.status);
    assert b[4..260] == Fit(r.message, 256);
  }

  lemma StatusBytes(status: int)
    requires -3 <= status <= 0
    ensures Int32(status) == if status == 0 then [0, 0, 0, 0] else [256 + status, 255, 255, 255]
  {
    var u := status % 0x1_0000_0000;
    assert u == if status == 0 then 0 else 0x1_0000_0000 + status;
  }

  // ---------- the specification of one exchange ----------

  datatype Sys = Sys(table: Table, otps: seq<Entry>)

  /** The response to a bank call that returned the outcome. */
  function BankResponse(op: Op, outcome: Outcome, e: Env): Response {
    Response(outcome.status, e.text,
             if op.Create? then op.initial else match outcome.balance case Some(b) => b case None => e.junk)
  }

  /** What the bank and the one-time-password server do about a request, and the reply. */
  function Dispatch(rnd: Rounding, s: Sys, request: Request, e: Env): (Sys, Response) {
    match request
    case Bank(op) =>
      var (table, outcome) := Apply(rnd, s.table, op);
      (s.(table := table), BankResponse(op, outcome, e))
    case NewOtp(account) =>
      var (otps, ok) := AfterGenerate(s.otps, account, Code(e.draw), e.now + LIFETIME);
      (s.(otps := otps), if ok then Response(STATUS_SUCCESS, OTP_PREFIX + Code(e.draw), 0.0)
                         else Response(STATUS_ERROR, e.text, 0.0))
    case CheckOtp(account, otp) =>
      var (otps, ok) := AfterVerify(s.otps, account, otp);
      (s.(otps := otps), Response(if ok then STATUS_SUCCESS else STATUS_ERROR, e.text, 0.0))
    case Invalid => (s, Response(STATUS_ERROR, e.text, 0.0))
  }

  function Answer(m: Platform, s: Sys, a: Arrival): (Sys, Response)
    requires FullSize(a)
  {
    Dispatch(m.rnd, s, Decode(m, a), a.env)
  }

  predicate AllReadable(arrivals: seq<Arrival>) {
    forall k :: 0 <= k < |arrivals| ==> Readable(arrivals[k])
  }

  /** The state after a run of exchanges. */
  function StateAfter(m: Platform, s: Sys, arrivals: seq<Arrival>): Sys
    requires AllReadable(arrivals)
  {
    if arrivals == [] then s
    else Answer(m, StateAfter(m, s, arrivals[..|arrivals| - 1]), arrivals[|arrivals| - 1]).0
  }

  /** The response to the k-th packet of the run. */
  function ResponseAt(m: Platform, s: Sys, arrivals: seq<Arrival>, k: nat): Response
    requires AllReadable(arrivals) && k < |arrivals|
  {
    Answer(m, StateAfter(m, s, arrivals[..k]), arrivals[k]).1
  }

  function ReplyAt(m: Platform, s: Sys, arrivals: seq<Arrival>, k: nat): Wire
    requires AllReadable(arrivals) && k < |arrivals|
  {
    Reply(m, ResponseAt(m, s, arrivals, k), arrivals[k].reqId)
  }

  /** The packets that answer the run, one for each arrival, in order. */
  function Replies(m: Platform, s: Sys, arrivals: seq<Arrival>): seq<Wire>
    requires AllReadable(arrivals)
  {
    seq(|arrivals|, k requires 0 <= k < |arrivals| => ReplyAt(m, s, arrivals, k))
  }

  // ---------- the worker ----------

  class Worker {
    const db: AccountDB
    const otp: OtpServer

    ghost predicate Valid()
      reads this, db, db.accounts, otp.db
    {
      db.Valid() && otp.db.Length == MAX_OTPS
    }

    ghost function State(): Sys
      requires Valid()
      reads this, db, db.accounts, otp.db
    {
      Sys(db.View(), otp.db[..])
    }

    /** ipc_init_server and the start of the OTP server precede the workers. */
    constructor ()
      ensures Valid() && fresh(db) && fresh(db.accounts) && fresh(otp.db)
      ensures State().table == [] && forall i :: 0 <= i < MAX_OTPS ==> !State().otps[i].used
    {
      db := new AccountDB();
      otp := new OtpServer();
    }

    method Operate(m: Platform, op: Op, e: Env) returns (response: Response)
      requires Valid()
      modifies db, db.accounts
      ensures Valid() && State().otps == old(State().otps)
      ensures var (table, outcome) := Apply(m.rnd, old(State().table), op);
              State().table == table
              && response == Response(outcome.status, e.text,
                                      if op.Create? then op.initial
                                      else match outcome.balance case Some(b) => b case None => e.junk)
    {
      var status: int;
      var result: Option<real> := None;
      match op {
        case Create(id, initial) =>
          status := db.CreateAccount(id, initial, m.rnd);
          return Response(status, e.text, initial);
        case Deposit(id, amount) => status, result := db.MakeDeposit(m.rnd, id, amount);
        case Withdraw(id, amount) => status, result := db.MakeWithdrawal(m.rnd, id, amount);
        case Query(id) => status, result := db.GetBalance(id, m.rnd);
      }
      response := Response(status, e.text, if result.Some? then result.value else e.junk);
    }

    /** The unpack_request of the packet's opcode, into a struct on the stack. */
    method ReadRequest(m: Platform, packet: BankingPacket, a: Arrival) returns (request: Request)
      requires packet.Valid() && Readable(a) && packet.Image() == a.data
      ensures request == Decode(m, a)
    {
      var opcode := Ntohs(packet.bytes[4..6]);
      assert packet.bytes[4..6] == packet.bytes[..][4..6];
      var size := StructSize(opcode);
      if size == None {
        return Invalid;
      }
      var tail := Fit(a.stack, size.value);
      var req := new byte[size.value](i requires 0 <= i < size.value => tail[i]);
      assert req[..] == tail;
      DecodeReceived(m, a, size.value);
      var unpacked := packet.UnpackRequest(req, size.value, a.beyond);
      request := if unpacked == Some(0) then Interpret(m, opcode, req[..]) else Invalid;
    }

    /** The switch of process_request. */
    method CarryOut(m: Platform, request: Request, e: Env) returns (response: Response)
      requires Valid()
      modifies db, db.accounts, otp.db
      ensures Valid() && (State(), response) == Dispatch(m.rnd, old(State()), request, e)
    {
      match request {
        case Bank(op) =>
          response := Operate(m, op, e);
        case NewOtp(account) =>
          var ok, code := otp.Generate(account, e.draw, e.now);
          response := if ok then Response(STATUS_SUCCESS, OTP_PREFIX + code, 0.0)
                      else Response(STATUS_ERROR, e.text, 0.0);
        case CheckOtp(account, code) =>
          var ok := otp.Verify(account, code);
          response := Response(if ok then STATUS_SUCCESS else STATUS_ERROR, e.text, 0.0);
        case Invalid =>
          response := Response(STATUS_ERROR, e.text, 0.0);
      }
    }

    /** process_request, up to sending the reply. */
    method ProcessRequest(m: Platform, packet: BankingPacket, a: Arrival) returns (response: Response)
      requires Valid() && packet.Valid() && Readable(a) && packet.Image() == a.data
      modifies db, db.accounts, otp.db
      ensures Valid() && (State(), response) == Answer(m, old(State()), a)
    {
      var request := ReadRequest(m, packet, a);
      response := CarryOut(m, request, a.env);
    }

    /** The end of process_request: the response goes out as a packet. */
    method SendResponse(m: Platform, response: Response, reqId: Word) returns (wire: Wire)
      ensures wire == Reply(m, response, reqId)
    {
      var encoded := Encode(m, response);
      var body := new byte[RESPONSE_SIZE](i requires 0 <= i < RESPONSE_SIZE => encoded[i]);
      assert body[..RESPONSE_SIZE] == encoded;
      var packet := new BankingPacket();
      var packed := packet.PackRequest(OP_RESPONSE, reqId, body, RESPONSE_SIZE);
      assert packet.Image() == packet.bytes[..];
      wire := packet.bytes[..];
    }

    /** One round of the packet loop: verify the checksum, process, answer; None if that faults. */
    method Respond(m: Platform, a: Arrival) returns (reply: Option<Wire>)
      requires Valid() && FullSize(a)
      modifies db, db.accounts, otp.db
      ensures Valid()
      ensures State() == if Readable(a) then Answer(m, old(State()), a).0 else old(State())
      ensures reply == if Readable(a) then Some(Reply(m, Answer(m, old(State()), a).1, a.reqId)) else None
    {
      var packet := new BankingPacket();
      packet.Put(0, a.data);
      assert packet.Image() == a.data;
      var verified := packet.VerifyChecksum(a.beyond);
      if verified == None {
        return None;
      }
      var response := Response(STATUS_ERROR, a.env.text, 0.0);
      if verified == Some(0) {
        response := ProcessRequest(m, packet, a);
      } else {
        RejectedExactly(m, a);
      }
      var wire := SendResponse(m, response, a.reqId);
      return Some(wire);
    }

    /** The packet loop of worker_main: it ends at the end of the input or at a packet of another size;
        a fault ends the worker. */
    method ServeConnection(m: Platform, arrivals: seq<Arrival>) returns (replies: seq<Wire>, alive: bool)
      requires Valid()
      modifies db, db.accounts, otp.db
      ensures Valid() && |replies| <= |arrivals| && AllReadable(arrivals[..|replies|])
      ensures |replies| < |arrivals| ==> !Readable(arrivals[|replies|])
      ensures alive <==> |replies| == |arrivals| || !FullSize(arrivals[|replies|])
      ensures State() == StateAfter(m, old(State()), arrivals[..|replies|])
      ensures replies == Replies(m, old(State()), arrivals[..|replies|])
    {
      replies := [];
      for i := 0 to |arrivals|
        invariant Valid() && |replies| == i && AllReadable(arrivals[..i])
        invariant State() == StateAfter(m, old(State()), arrivals[..i])
        invariant replies == Replies(m, old(State()), arrivals[..i])
      {
        if !FullSize(arrivals[i]) {
          return replies, true;
        }
        var reply := Respond(m, arrivals[i]);
        if reply == None {
          return replies, false;
        }
        ExtendRun(m, old(State()), arrivals, i);
        replies := replies + [reply.value];
      }
      assert arrivals[..|arrivals|] == arrivals;
      alive := true;
    }
  }

  /** Later packets do not change a reply. */
  lemma EarlierReply(m: Platform, s: Sys, arrivals: seq<Arrival>, i: nat, k: nat)
    requires AllReadable(arrivals) && k < i <= |arrivals|
    ensures AllReadable(arrivals[..i])
    ensures ReplyAt(m, s, arrivals[..i], k) == ReplyAt(m, s, arrivals, k)
  {
    assert arrivals[..i][..k] == arrivals[..k];
  }

  lemma ExtendReplies(m: Platform, s: Sys, arrivals: seq<Arrival>)
    requires AllReadable(arrivals) && arrivals != []
    ensures var n := |arrivals| - 1;
            Replies(m, s, arrivals) == Replies(m, s, arrivals[..n]) + [ReplyAt(m, s, arrivals, n)]
  {
    var n := |arrivals| - 1;
    var all, init := Replies(m, s, arrivals), Replies(m, s, arrivals[..n]);
    forall k | 0 <= k < n
      ensures all[k] == init[k]
    {
      EarlierReply(m, s, arrivals, n, k);
    }
  }

  lemma ExtendRun(m: Platform, s: Sys, arrivals: seq<Arrival>, i: nat)
    requires i < |arrivals| && AllReadable(arrivals[..i]) && Readable(arrivals[i])
    ensures AllReadable(arrivals[..i + 1])
    ensures var (after, response) := Answer(m, StateAfter(m, s, arrivals[..i]), arrivals[i]);
            && StateAfter(m, s, arrivals[..i + 1]) == after
            && Replies(m, s, arrivals[..i + 1])
               == Replies(m, s, arrivals[..i]) + [Reply(m, response, arrivals[i].reqId)]
  {
    assert arrivals[..i + 1][..i] == arrivals[..i];
    ExtendReplies(m, s, arrivals[..i + 1]);
  }

  // ---------- the packet loop refines the sequential bank ----------

  function BankOpOf(request: Request): seq<Op> {
    match request case Bank(op) => [op] case _ => []
  }

  function OtpOpOf(request: Request, e: Env): seq<OtpRuns.OtpOp> {
    match request
    case NewOtp(account) => [OtpRuns.Generate(account, Code(e.draw), e.now + LIFETIME)]
    case CheckOtp(account, otp) => [OtpRuns.Verify(account, otp)]
    case _ => []
  }

  /** The bank requests decoded from intact packets, in order. */
  function BankOps(m: Platform, arrivals: seq<Arrival>): seq<Op>
    requires AllReadable(arrivals)
  {
    if arrivals == [] then []
    else BankOps(m, arrivals[..|arrivals| - 1]) + BankOpOf(Decode(m, arrivals[|arrivals| - 1]))
  }

  /** ... and the one-time-password requests. */
  function OtpOps(m: Platform, arrivals: seq<Arrival>): seq<OtpRuns.OtpOp>
    requires AllReadable(arrivals)
  {
    if arrivals == [] then []
    else
      var a := arrivals[|arrivals| - 1];
      OtpOps(m, arrivals[..|arrivals| - 1]) + OtpOpOf(Decode(m, a), a.env)
  }

  function Start(): Sys { Sys([], OtpRuns.Blank()) }

  lemma DispatchState(rnd: Rounding, ops: seq<Op>, otpOps: seq<OtpRuns.OtpOp>, request: Request, e: Env)
    ensures Dispatch(rnd, Sys(Run(rnd, ops), OtpRuns.Serve(OtpRuns.Blank(), otpOps)), request, e).0
            == Sys(Run(rnd, ops + BankOpOf(request)),
                   OtpRuns.Serve(OtpRuns.Blank(), otpOps + OtpOpOf(request, e)))
  {
    assert ops + [] == ops && otpOps + [] == otpOps;
    match request {
      case Bank(op) => RunExtend(rnd, ops, op);
      case NewOtp(_) => assert (otpOps + OtpOpOf(request, e))[..|otpOps|] == otpOps;
      case CheckOtp(_, _) => assert (otpOps + OtpOpOf(request, e))[..|otpOps|] == otpOps;
      case Invalid =>
    }
  }

  /** The bank and the one-time-password server see exactly the requests decoded from intact packets. */
  lemma {:induction false} StateIsRunOfRequests(m: Platform, arrivals: seq<Arrival>)
    requires AllReadable(arrivals)
    ensures StateAfter(m, Start(), arrivals)
            == Sys(Run(m.rnd, BankOps(m, arrivals)), OtpRuns.Serve(OtpRuns.Blank(), OtpOps(m, arrivals)))
  {
    if arrivals != [] {
      var init, a := arrivals[..|arrivals| - 1], arrivals[|arrivals| - 1];
      StateIsRunOfRequests(m, init);
      DispatchState(m.rnd, BankOps(m, init), OtpOps(m, init), Decode(m, a), a.env);
    }
  }

  /** Messages that fit the message field. */
  predicate PlainText(e: Env) {
    0 !in e.text && |e.text| < MESSAGE_SIZE
  }

  lemma ResponseFits(rnd: Rounding, s: Sys, request: Request, e: Env)
    requires PlainText(e)
    ensures var r := Dispatch(rnd, s, request, e).1;
            -3 <= r.status <= 0 && 0 !in r.message && |r.message| < MESSAGE_SIZE
  {
    CodeHasSixDigits(e.draw);
  }

  /** One reply per packet, in order, and the client reads from it exactly the worker's response. */
  lemma RepliesCarryResponses(m: Platform, arrivals: seq<Arrival>, k: nat)
    requires AllReadable(arrivals) && k < |arrivals| && PlainText(arrivals[k].env)
    ensures var wire := Replies(m, Start(), arrivals)[k];
            InRange(wire)
            && var reply := Unpack(wire, RESPONSE_SIZE);
               reply.Some? && |reply.value| == RESPONSE_SIZE
               && var response := ResponseAt(m, Start(), arrivals, k);
                  StatusOf(reply.value) == response.status && MessageOf(reply.value) == response.message
                  && BalanceOf(reply.value) == Fit(m.enc(response.balance), DOUBLE_SIZE)
  {
    ResponseFits(m.rnd, StateAfter(m, Start(), arrivals[..k]), Decode(m, arrivals[k]), arrivals[k].env);
    ReplyRoundTrip(m, ResponseAt(m, Start(), arrivals, k), arrivals[k].reqId);
  }

  /** The packet loop refines the bank: the response to an intact bank request has the status (and, if
      it succeeds, the balance) that the map from id to balance gives after the bank requests before
      it, as long as none of those slipped; every rejected packet is answered -1 and changes
      nothing. */
  lemma LoopRefinesBank(m: Platform, arrivals: seq<Arrival>, k: nat)
    requires AllReadable(arrivals) && k < |arrivals|
    requires NoSlip(m.rnd, BankOps(m, arrivals[..k]))
    ensures var response := ResponseAt(m, Start(), arrivals, k);
            match Decode(m, arrivals[k])
            case Bank(op) =>
              var outcome := ApplyMap(m.rnd, RunMap(m.rnd, BankOps(m, arrivals[..k])), op).1;
              response.status == outcome.status
              && (outcome.balance.Some? ==> response.balance == outcome.balance.value)
            case Invalid =>
              response == Response(-1, arrivals[k].env.text, 0.0)
              && StateAfter(m, Start(), arrivals[..k + 1]) == StateAfter(m, Start(), arrivals[..k])
            case _ => PasswordAnswer(Passwords(m, arrivals[..k]), Passwords(m, arrivals[..k + 1]),
                                     Decode(m, arrivals[k]), arrivals[k].env, response)
  {
    var before, request := StateAfter(m, Start(), arrivals[..k]), Decode(m, arrivals[k]);
    assert arrivals[..k + 1][..k] == arrivals[..k];
    if request.Bank? {
      StateIsRunOfRequests(m, arrivals[..k]);
      BankAnswer(m.rnd, before, BankOps(m, arrivals[..k]), request.op, arrivals[k].env);
    } else if !request.Invalid? {
      PasswordsAnswered(m, arrivals, k);
    }
  }

  /** The password table that the one-time-password requests of the packets leave. */
  function Passwords(m: Platform, arrivals: seq<Arrival>): seq<Entry>
    requires AllReadable(arrivals)
  {
    OtpRuns.Serve(OtpRuns.Blank(), OtpOps(m, arrivals))
  }

  /** The text of the message that carries a code. */
  predicate Announces(message: seq<byte>, code: Text) {
    && |message| == 15 + |code| && message[15..] == code
    && forall i :: 0 <= i < 15 ==> message[i] == "OTP Generated: "[i] as int
  }

  /** How a one-time-password request is answered on table d, and the table after it: a login succeeds
      exactly with the newest code of its account and uses it up; a code is refused exactly if all 100
      slots are live for other accounts, and is announced and becomes the newest otherwise. A rejected
      packet is answered -1; it and bank requests leave the table alone. */
  predicate PasswordAnswer(d: seq<Entry>, after: seq<Entry>, request: Request, e: Env, response: Response) {
    match request
    case NewOtp(account) =>
      && (response.status == 0 || response.status == -1) && response.balance == 0.0
      && (response.status == 0 <==> !(Live(d) == 100 && Stack(d, account) == []))
      && (response.status == 0 ==>
            && Stack(after, account) != [] && Announces(response.message, Stack(after, account)[0])
            && Value(Stack(after, account)[0]) == 100000 + e.draw % 900000 && SixDigits(Stack(after, account)[0]))
      && (response.status == -1 ==> after == d && response.message == e.text)
    case CheckOtp(account, otp) =>
      && (response.status == 0 || response.status == -1) && response.message == e.text && response.balance == 0.0
      && (response.status == 0 <==> Stack(d, account) != [] && Stack(d, account)[0] == otp)
      && (response.status == 0 ==> Stack(after, account) == Stack(d, account)[1..])
      && (response.status == -1 ==> after == d)
    case Bank(_) => after == d
    case Invalid => after == d && response == Response(-1, e.text, 0.0)
  }

  lemma PrefixIsText()
    ensures |OTP_PREFIX| == 15 && forall i :: 0 <= i < 15 ==> OTP_PREFIX[i] == "OTP Generated: "[i] as int
  {
  }

  lemma NewOtpAnswer(rnd: Rounding, s: Sys, account: Text, e: Env)
    requires |s.otps| == 100
    ensures var (after, response) := Dispatch(rnd, s, NewOtp(account), e);
            PasswordAnswer(s.otps, after.otps, NewOtp(account), e, response)
  {
    PrefixIsText();
    CodeIsNumber(e.draw);
    GenerateRefines(s.otps, account, Code(e.draw), e.now + LIFETIME, account);
  }

  lemma CheckOtpAnswer(rnd: Rounding, s: Sys, account: Text, otp: Text, e: Env)
    ensures var (after, response) := Dispatch(rnd, s, CheckOtp(account, otp), e);
            PasswordAnswer(s.otps, after.otps, CheckOtp(account, otp), e, response)
  {
    VerifyRefines(s.otps, account, otp, account);
  }

  lemma PasswordsMoveOn(m: Platform, arrivals: seq<Arrival>, k: nat)
    requires AllReadable(arrivals) && k < |arrivals|
    ensures var before := StateAfter(m, Start(), arrivals[..k]);
            && Passwords(m, arrivals[..k]) == before.otps
            && Passwords(m, arrivals[..k + 1])
               == Dispatch(m.rnd, before, Decode(m, arrivals[k]), arrivals[k].env).0.otps
  {
    StateIsRunOfRequests(m, arrivals[..k]);
    StateIsRunOfRequests(m, arrivals[..k + 1]);
    assert arrivals[..k + 1][..k] == arrivals[..k];
  }

  /** The response to a one-time-password request, on the table that the requests before it leave. */
  lemma {:induction false} PasswordsAnswered(m: Platform, arrivals: seq<Arrival>, k: nat)
    requires AllReadable(arrivals) && k < |arrivals|
    ensures PasswordAnswer(Passwords(m, arrivals[..k]), Passwords(m, arrivals[..k + 1]),
                           Decode(m, arrivals[k]), arrivals[k].env, ResponseAt(m, Start(), arrivals, k))
  {
    var before, request, e := StateAfter(m, Start(), arrivals[..k]), Decode(m, arrivals[k]), arrivals[k].env;
    PasswordsMoveOn(m, arrivals, k);
    if request.NewOtp? {
      NewOtpAnswer(m.rnd, before, request.account, e);
    } else if request.CheckOtp? {
      CheckOtpAnswer(m.rnd, before, request.account, request.otp, e);
    }
  }

  lemma BankAnswer(rnd: Rounding, s: Sys, ops: seq<Op>, op: Op, e: Env)
    requires NoSlip(rnd, ops) && s.table == Run(rnd, ops)
    ensures var r := Dispatch(rnd, s, Bank(op), e).1;
            var outcome := ApplyMap(rnd, RunMap(rnd, ops), op).1;
            r.status == outcome.status && (outcome.balance.Some? ==> r.balance == outcome.balance.value)
  {
    NoSlipRefines(rnd, ops);
    RunWellFormed(rnd, ops);
    RefinesMapExactly(rnd, Run(rnd, ops), op);
  }
}
