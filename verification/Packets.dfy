/** The packets of socketlogic/c_socketlogic.cxx: how the handlers lay them out, how a worker examines
    them, and what survives the way from one to the other. */
module Packets {
  import opened Words
  import opened Crc32Spec
  import opened Framing
  import opened Receiver
  import CheckValue
  import Crc32

  const CMD_PING := 1
  const CMD_REGISTER := 5
  const CMD_LOGIN := 6

  const MAX_BODY := PKG_MAX_LENGTH - 1000 - PKG_HEADER_LEN

  // ---------- Byte order ----------

  /** htons. */
  function Network16(n: nat): seq<Byte>
    requires n < 0x10000
  {
    [n / 256, n % 256]
  }

  /** htonl. */
  function Network32(w: Word): seq<Byte> {
    [ByteOf(w[24..]), ByteOf(w[16..24]), ByteOf(w[8..16]), ByteOf(w[..8])]
  }

  /** ntohl. */
  function Host32(bytes: seq<Byte>): Word
    requires |bytes| == 4
  {
    BitsOf(bytes[3], 8) + BitsOf(bytes[2], 8) + BitsOf(bytes[1], 8) + BitsOf(bytes[0], 8)
  }

  lemma HostNetwork(w: Word)
    ensures Host32(Network32(w)) == w
  {
    ByteOfBits(w[..8]);
    ByteOfBits(w[8..16]);
    ByteOfBits(w[16..24]);
    ByteOfBits(w[24..]);
    assert w == w[..8] + w[8..16] + w[16..24] + w[24..];
  }

  // ---------- Layout ----------

  function BodyCrc(body: seq<Byte>): Word {
    if body == [] then ZERO else Crc(body)
  }

  datatype AnyPacket = Packet(code: nat, body: seq<Byte>)

  /** A message code of two bytes and a body that the receiver does not call too long. */
  type Packet = p: AnyPacket | p.code < 0x10000 && |p.body| <= MAX_BODY witness Packet(0, [])

  function Encode(p: Packet): (packet: seq<Byte>)
    ensures |packet| == PKG_HEADER_LEN + |p.body|
  {
    Network16(PKG_HEADER_LEN + |p.body|) + Network16(p.code) + Network32(BodyCrc(p.body)) + p.body
  }

  function EncodeAll(ps: seq<Packet>): (es: seq<seq<Byte>>)
    ensures |es| == |ps|
  {
    if ps == [] then [] else [Encode(ps[0])] + EncodeAll(ps[1..])
  }

  function Concat(parts: seq<seq<Byte>>): seq<Byte> {
    if parts == [] then [] else parts[0] + Concat(parts[1..])
  }

  // ---------- What a worker does with a message ----------

  datatype Verdict = Outdated | BadCrc | BadCode | NoHandler | Dispatched(code: nat)

  const TOTAL_COMMANDS := 7

  /** The positions of the handler table that are not null: Ping, Register and Login. */
  predicate HasHandler(code: nat) {
    code == 0 || code == 5 || code == 6
  }

  function MsgCode(packet: seq<Byte>): nat
    requires |packet| >= PKG_HEADER_LEN
  {
    (packet[2] as int) * 256 + packet[3]
  }

  function StoredCrc(packet: seq<Byte>): Word
    requires |packet| >= PKG_HEADER_LEN
  {
    Host32(packet[4..8])
  }

  predicate CrcAccepted(packet: seq<Byte>)
    requires |packet| >= PKG_HEADER_LEN
  {
    StoredCrc(packet) == BodyCrc(packet[PKG_HEADER_LEN..])
  }

  /** The answer of ThreadRecvProc up to the call of the handler; `live` is what JudgeOutdate says. */
  function Examine(packet: seq<Byte>, live: bool): Verdict
    requires |packet| >= PKG_HEADER_LEN
  {
    if !live then Outdated
    else if !CrcAccepted(packet) then BadCrc
    else if MsgCode(packet) >= TOTAL_COMMANDS then BadCode
    else if !HasHandler(MsgCode(packet)) then NoHandler
    else Dispatched(MsgCode(packet))
  }

  // ---------- Round trips ----------

  /** The bytes are a legal packet with this code and body that passes the checksum test. */
  ghost predicate Carries(e: seq<Byte>, p: Packet) {
    && PKG_HEADER_LEN <= |e| == PkgLen(e) && LegalLength(|e|)
    && MsgCode(e) == p.code && e[PKG_HEADER_LEN..] == p.body && CrcAccepted(e)
  }

  lemma EncodeCarries(p: Packet)
    ensures Carries(Encode(p), p)
  {
    var e := Encode(p);
    assert e[4..8] == Network32(BodyCrc(p.body));
    HostNetwork(BodyCrc(p.body));
    assert e[PKG_HEADER_LEN..] == p.body;
  }

  lemma {:induction false} EncodeAllCarries(ps: seq<Packet>)
    ensures forall k | 0 <= k < |ps| :: Carries(EncodeAll(ps)[k], ps[k])
    ensures Parse(Concat(EncodeAll(ps))) == Parsed(EncodeAll(ps), [])
    decreases |ps|
  {
    if ps != [] {
      var first, rest := Encode(ps[0]), Concat(EncodeAll(ps[1..]));
      EncodeCarries(ps[0]);
      EncodeAllCarries(ps[1..]);
      PacketTaken(first, rest);
      assert EncodeAll(ps)[1..] == EncodeAll(ps[1..]);
      forall k | 0 <= k < |ps| ensures Carries(EncodeAll(ps)[k], ps[k]) {
        if k > 0 {
          assert EncodeAll(ps)[k] == EncodeAll(ps[1..])[k - 1];
        }
      }
    }
  }

  /** Encoded packets, sent back to back and received in any chunking, come out as they went in, and
      each passes the checksum test. */
  lemma RoundTrip(ps: seq<Packet>, rs: seq<Recv>)
    requires ReceiveAll(START, rs).taken == Concat(EncodeAll(ps))
    ensures var got := ReceiveAll(START, rs).packets;
            |got| == |ps| && forall k | 0 <= k < |ps| :: Carries(got[k], ps[k])
  {
    ChunkingIndependence(rs);
    EncodeAllCarries(ps);
  }

  /** The packet with its body replaced on the way. */
  function Corrupted(p: Packet, arrived: seq<Byte>): seq<Byte>
    requires |arrived| == |p.body|
  {
    Encode(p)[..PKG_HEADER_LEN] + arrived
  }

  /** A worker accepts a changed body exactly when the change is a multiple of the generator. */
  lemma CorruptionAcceptedIff(p: Packet, arrived: seq<Byte>)
    requires |arrived| == |p.body|
    ensures CrcAccepted(Corrupted(p, arrived)) <==> IsMultiple(Plus(Bits(p.body), Bits(arrived)))
  {
    var c := Corrupted(p, arrived);
    EncodeCarries(p);
    assert c[4..8] == Encode(p)[4..8] && c[PKG_HEADER_LEN..] == arrived;
    UndetectedIffMultiple(p.body, arrived);
    if p.body == [] {
      assert Plus(Bits(p.body), Bits(arrived)) == Zeros(0);
    }
  }

  /** In particular it rejects every change within 32 consecutive bits of the body. */
  lemma BurstRejected(p: Packet, arrived: seq<Byte>, start: nat, live: bool)
    requires |arrived| == |p.body| && arrived != p.body && AgreeOutside(p.body, arrived, start, 32)
    ensures Examine(Corrupted(p, arrived), live) == if live then BadCrc else Outdated
  {
    CorruptionAcceptedIff(p, arrived);
    BurstDetected(p.body, arrived, start, 32);
    UndetectedIffMultiple(p.body, arrived);
  }

  /** For a given code, length and body exactly one value of the checksum field is accepted. */
  lemma OneFieldAccepted(p: Packet, field: seq<Byte>)
    requires |field| == 4
    ensures var e := Encode(p); CrcAccepted(e[..4] + field + p.body) <==> field == e[4..8]
  {
    var e := Encode(p);
    var x := e[..4] + field + p.body;
    assert x[4..8] == field && x[PKG_HEADER_LEN..] == p.body;
    assert e[4..8] == Network32(BodyCrc(p.body));
    HostNetwork(BodyCrc(p.body));
    NetworkHost(field);
  }

  lemma NetworkHost(field: seq<Byte>)
    requires |field| == 4
    ensures Network32(Host32(field)) == field
  {
    var w := Host32(field);
    assert w[..8] == BitsOf(field[3], 8) && w[8..16] == BitsOf(field[2], 8);
    assert w[16..24] == BitsOf(field[1], 8) && w[24..] == BitsOf(field[0], 8);
    ByteOfByte(field[0]);
    ByteOfByte(field[1]);
    ByteOfByte(field[2]);
    ByteOfByte(field[3]);
  }

  lemma ByteOfByte(b: Byte)
    ensures ByteOf(BitsOf(b, 8)) == b
  {
    PowersOfTwo();
    ValueOfBits(b, 8);
  }

  /** The first test comes first: whatever the packet is, the answer is that it is out of date exactly if its
      connection is. */
  lemma OutdatedIff(packet: seq<Byte>, live: bool)
    requires |packet| >= PKG_HEADER_LEN
    ensures Examine(packet, live) == Outdated <==> !live
  {
  }

  /** The whole verdict on a packet that carries a code and a body. */
  lemma ExamineCarried(e: seq<Byte>, p: Packet, live: bool)
    requires Carries(e, p)
    ensures Examine(e, live) == if !live then Outdated
                                else if p.code > 6 then BadCode
                                else if p.code == 0 || p.code == CMD_REGISTER || p.code == CMD_LOGIN then
                                  Dispatched(p.code)
                                else NoHandler
  {
  }

  /** The handler table has Ping at 0, the message code of a ping is 1: the server's own ping packet
      finds no handler; among all codes only 0 reaches the ping handler, and Register and Login reach
      theirs. */
  lemma PingCodeHasNoHandler(p: Packet)
    ensures Examine(Encode(Packet(CMD_PING, [])), true) == NoHandler
    ensures Examine(Encode(p), true) == Dispatched(0) <==> p.code == 0
    ensures Examine(Encode(p), true) == Dispatched(p.code) <==>
              p.code == 0 || p.code == CMD_REGISTER || p.code == CMD_LOGIN
  {
    EncodeCarries(Packet(CMD_PING, []));
    ExamineCarried(Encode(Packet(CMD_PING, [])), Packet(CMD_PING, []), true);
    EncodeCarries(p);
    ExamineCarried(Encode(p), p, true);
  }

  lemma SumBytes(body: seq<Byte>, b0: Byte, b1: Byte, b2: Byte, b3: Byte)
    requires body != [] && LittleEndian(Crc(body)) == [b0, b1, b2, b3]
    ensures Network32(BodyCrc(body)) == [b3, b2, b1, b0]
  {
    var w := Crc(body);
    assert LittleEndian(w) == [ByteOf(w[..8]), ByteOf(w[8..16]), ByteOf(w[16..24]), ByteOf(w[24..])];
  }

  lemma HeaderBytes(p: Packet, sum: seq<Byte>)
    requires p.code < 256 && |p.body| < 248 && |sum| == 4 && Network32(BodyCrc(p.body)) == sum
    ensures Encode(p) == [0, 8 + |p.body|, 0, p.code] + sum + p.body
  {
    assert Network16(PKG_HEADER_LEN + |p.body|) + Network16(p.code) == [0, 8 + |p.body|, 0, p.code];
  }

  /** The bytes of one packet: length, code and checksum are in network byte order. */
  lemma BytesOnTheWire(p: Packet)
    requires p.code == CMD_REGISTER && p.body == CheckValue.DIGITS
    ensures Encode(p) == [0, 17, 0, 5] + [0xCB, 0xF4, 0x39, 0x26] + p.body
  {
    CheckValue.SumOfDigits(p.body);
    SumBytes(p.body, 0x26, 0x39, 0xF4, 0xCB);
    HeaderBytes(p, [0xCB, 0xF4, 0x39, 0x26]);
  }

  // ---------- The code on buffers ----------

  /** ThreadRecvProc up to the call of the handler.  The message comes from the receive machine. */
  method ThreadRecvProc(msg: array<Byte>, live: bool, crc: Crc32.CCRC32) returns (verdict: Verdict)
    requires crc.Valid()
    requires msg.Length > MSG_HEADER_LEN + PKG_HEADER_LEN
    requires msg.Length == MSG_HEADER_LEN + PkgLen(msg[MSG_HEADER_LEN..]) + 1
    ensures verdict == Examine(msg[MSG_HEADER_LEN..msg.Length - 1], live)
  {
    ghost var packet := msg[MSG_HEADER_LEN..msg.Length - 1];
    var header := msg[MSG_HEADER_LEN..MSG_HEADER_LEN + PKG_HEADER_LEN];
    var lpBody := MSG_HEADER_LEN + PKG_HEADER_LEN;
    var bodyLen := PkgLen(header) - PKG_HEADER_LEN;
    assert header == packet[..PKG_HEADER_LEN] && header[4..8] == packet[4..8];
    if !live {
      return Outdated;
    }
    if bodyLen == 0 {
      if Host32(header[4..8]) != ZERO {
        return BadCrc;
      }
    } else {
      var calculated := crc.GetCrc(msg, lpBody, bodyLen);
      assert msg[lpBody..lpBody + bodyLen] == packet[PKG_HEADER_LEN..];
      if calculated != Host32(header[4..8]) {
        return BadCrc;
      }
    }
    var code := MsgCode(header);
    if code >= TOTAL_COMMANDS {
      return BadCode;
    }
    if !HasHandler(code) {
      return NoHandler;
    }
    return Dispatched(code);
  }

  function ZeroBytes(n: nat): (z: seq<Byte>)
    ensures |z| == n
  {
    seq(n, k => 0)
  }

  lemma FourParts(x: seq<Byte>, a: seq<Byte>, b: seq<Byte>, c: seq<Byte>, d: seq<Byte>)
    requires |a| == |b| == 2 && |c| == 4 && |x| == 8 + |d|
    requires x[..2] == a && x[2..4] == b && x[4..8] == c && x[8..] == d
    ensures x == a + b + c + d
  {
    assert x == x[..2] + x[2..4] + x[4..8] + x[8..];
  }

  lemma SliceOfSlice(s: seq<Byte>, a: nat, b: nat, c: nat, d: nat)
    requires a <= b <= |s| && c <= d <= b - a
    ensures s[a..b][c..d] == s[a + c..a + d]
  {
    var x := s[a..b];
    forall k | 0 <= k < d - c ensures x[c..d][k] == s[a + c..a + d][k] {
      assert x[c..d][k] == x[c + k];
    }
  }

  /** Everything but the checksum is in place. */
  ghost predicate Prepared(reply: seq<Byte>, messageHeader: seq<Byte>, p: Packet) {
    && |messageHeader| == MSG_HEADER_LEN && |reply| == MSG_HEADER_LEN + PKG_HEADER_LEN + |p.body| + 1
    && reply[..16] == messageHeader
    && reply[16..18] == Network16(PKG_HEADER_LEN + |p.body|)
    && reply[18..20] == Network16(p.code)
    && reply[24..|reply| - 1] == p.body
    && reply[|reply| - 1] == 0
  }

  lemma PreparedKept(before: seq<Byte>, reply: seq<Byte>, messageHeader: seq<Byte>, p: Packet)
    requires Prepared(before, messageHeader, p) && |reply| == |before|
    requires reply[..20] == before[..20] && reply[24..] == before[24..]
    ensures Prepared(reply, messageHeader, p)
  {
    assert reply[..16] == reply[..20][..16] && reply[16..18] == reply[..20][16..18];
    assert reply[18..20] == reply[..20][18..20];
    assert before[..16] == before[..20][..16] && before[16..18] == before[..20][16..18];
    assert before[18..20] == before[..20][18..20];
    var n := |reply| - 25;
    assert reply[24..|reply| - 1] == reply[24..][..n] && before[24..|reply| - 1] == before[24..][..n];
    assert reply[|reply| - 1] == reply[24..][n] && before[|reply| - 1] == before[24..][n];
  }

  lemma ReplyLayout(reply: seq<Byte>, messageHeader: seq<Byte>, p: Packet)
    requires Prepared(reply, messageHeader, p)
    requires reply[20..24] == Network32(BodyCrc(p.body))
    ensures reply == Message(messageHeader, Encode(p))
  {
    var x := reply[16..|reply| - 1];
    SliceOfSlice(reply, 16, |reply| - 1, 0, 2);
    SliceOfSlice(reply, 16, |reply| - 1, 2, 4);
    SliceOfSlice(reply, 16, |reply| - 1, 4, 8);
    SliceOfSlice(reply, 16, |reply| - 1, 8, |x|);
    FourParts(x, Network16(PKG_HEADER_LEN + |p.body|), Network16(p.code), Network32(BodyCrc(p.body)), p.body);
    WholeMessage(reply, messageHeader, x);
  }

  /** memcpy and the assignment of header fields. */
  method Put(buffer: array<Byte>, at: nat, bytes: seq<Byte>)
    requires at + |bytes| <= buffer.Length
    modifies buffer
    ensures buffer[at..at + |bytes|] == bytes
    ensures buffer[..at] == old(buffer[..at]) && buffer[at + |bytes|..] == old(buffer[at + |bytes|..])
    ensures forall k | 0 <= k < buffer.Length && !(at <= k < at + |bytes|) :: buffer[k] == old(buffer[k])
  {
    forall k | 0 <= k < |bytes| {
      buffer[at + k] := bytes[k];
    }
  }

  /** A reply with everything but the checksum in place. */
  method NewReply(messageHeader: seq<Byte>, p: Packet) returns (reply: array<Byte>)
    requires |messageHeader| == MSG_HEADER_LEN && p.body == ZeroBytes(|p.body|)
    ensures fresh(reply) && Prepared(reply[..], messageHeader, p)
  {
    var n := |p.body|;
    reply := new Byte[MSG_HEADER_LEN + PKG_HEADER_LEN + n + 1](k => 0);
    Put(reply, 0, messageHeader);
    Put(reply, 18, Network16(p.code));
    Put(reply, 16, Network16(PKG_HEADER_LEN + n));
    assert forall k | 24 <= k < 24 + n :: reply[k] == 0;
  }

  /** The reply of a handler: the sender's message header, a packet header, `n` bytes of body left zero,
      a final zero. */
  method BuildReply(crc: Crc32.CCRC32, messageHeader: seq<Byte>, code: nat, n: nat) returns (reply: array<Byte>)
    requires crc.Valid()
    requires |messageHeader| == MSG_HEADER_LEN && code < 0x10000 && n <= MAX_BODY
    ensures fresh(reply)
    ensures reply[..] == Message(messageHeader, Encode(Packet(code, ZeroBytes(n))))
  {
    var p := Packet(code, ZeroBytes(n));
    reply := NewReply(messageHeader, p);
    var sum: Word := ZERO;
    if n > 0 {
      sum := crc.GetCrc(reply, MSG_HEADER_LEN + PKG_HEADER_LEN, n);
    }
    assert sum == BodyCrc(p.body);
    ghost var before := reply[..];
    Put(reply, 20, Network32(sum));
    PreparedKept(before, reply[..], messageHeader, p);
    ReplyLayout(reply[..], messageHeader, p);
  }
}
