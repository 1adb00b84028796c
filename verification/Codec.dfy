// Message frames, the numbered payloads of the delivery modes, acks and packet headers.
module Codec {
  import opened Config
  import opened Bytes

  // ------------------------------------------------------------ message frames

  datatype Message = Message(channel: Channel, kind: byte, data: seq<byte>)

  const FRAME_WIDTHS: seq<nat> := [1, 1, 2]

  lemma FrameWidths()
    ensures Total(FRAME_WIDTHS) == MESSAGE_HEADER_BYTES
  {
    assert FRAME_WIDTHS[1..] == [1, 2] && [1, 2][1..] == [2];
  }

  function EncodeMessage(m: Message): seq<byte> {
    Pack([m.channel.Code(), m.kind, |m.data|], FRAME_WIDTHS) + m.data
  }

  function ReadMessage(s: seq<byte>): Result<(Message, seq<byte>)> {
    if s == [] then Failure(EndOfStream)
    else if |s| < MESSAGE_HEADER_BYTES then Failure(BadPacket)
    else
      FrameWidths(); UnpackInRange(s, FRAME_WIDTHS); Widths();
      var f := Unpack(s, FRAME_WIDTHS);
      var rest := s[MESSAGE_HEADER_BYTES..];
      if f[0] > 4 || f[2] > |rest| then Failure(BadPacket)
      else Success((Message(ChannelOf(f[0]), f[1], rest[..f[2]]), rest[f[2]..]))
  }

  // A frame reads back, whatever follows it in the payload.
  lemma ReadMessageOfEncode(m: Message, rest: seq<byte>)
    requires |m.data| < U16_LIMIT
    ensures ReadMessage(EncodeMessage(m) + rest) == Success((m, rest))
  {
    var fields := [m.channel.Code(), m.kind, |m.data|];
    var s := EncodeMessage(m) + rest;
    FrameWidths();
    Widths();
    UnpackOfPack(fields, FRAME_WIDTHS, m.data + rest);
    assert s == Pack(fields, FRAME_WIDTHS) + (m.data + rest);
    assert s[4..] == m.data + rest;
  }

  // What was read encodes to the bytes it was read from.
  lemma EncodeOfReadMessage(s: seq<byte>)
    requires ReadMessage(s).Success?
    ensures var (m, rest) := ReadMessage(s).value; EncodeMessage(m) + rest == s && |m.data| < U16_LIMIT
  {
    FrameWidths();
    Widths();
    UnpackInRange(s, FRAME_WIDTHS);
    PackOfUnpack(s, FRAME_WIDTHS);
    var (m, rest) := ReadMessage(s).value;
    assert Unpack(s, FRAME_WIDTHS) == [m.channel.Code(), m.kind, |m.data|];
  }

  function EncodeAll(frames: seq<Message>): seq<byte> {
    if frames == [] then [] else EncodeMessage(frames[0]) + EncodeAll(frames[1..])
  }

  // The frames of a payload, up to the first malformed one.
  function ReadAll(s: seq<byte>): (r: Result<seq<Message>>)
    decreases |s|
  {
    if s == [] then Success([])
    else
      match ReadMessage(s)
      case Failure(e) => Failure(e)
      case Success((m, rest)) =>
        var more := ReadAll(rest);
        if more.Failure? then more else Success([m] + more.value)
  }

  // Any list of frames parses back to itself.
  lemma {:induction false} ReadAllOfEncodeAll(frames: seq<Message>)
    requires forall m | m in frames :: |m.data| < U16_LIMIT
    ensures ReadAll(EncodeAll(frames)) == Success(frames)
  {
    if frames != [] {
      ReadMessageOfEncode(frames[0], EncodeAll(frames[1..]));
      ReadAllOfEncodeAll(frames[1..]);
      assert frames == [frames[0]] + frames[1..];
    }
  }

  // ---------------------------------------------------------- numbered payloads

  // The envelope of the reliable, ordered and sequenced modes: a U64 and the bytes.
  function EncodeNumbered(number: nat, data: seq<byte>): seq<byte> { BigEndian(number, 8) + data }

  function ReadNumbered(s: seq<byte>): Result<(nat, seq<byte>)> {
    if |s| < 8 then Failure(BadPacket)
    else if Value(s[..8]) == 0 then Failure(BadPacket)
    else if |s| - 8 >= U16_LIMIT then Failure(BadPacket)
    else Success((Value(s[..8]), s[8..]))
  }

  lemma ReadNumberedOfEncode(number: nat, data: seq<byte>)
    requires 0 < number < U64_LIMIT && |data| < U16_LIMIT
    ensures ReadNumbered(EncodeNumbered(number, data)) == Success((number, data))
  {
    Widths();
    ValueOfBigEndian(number, 8);
    assert EncodeNumbered(number, data)[..8] == BigEndian(number, 8);
  }

  lemma EncodeOfReadNumbered(s: seq<byte>)
    requires ReadNumbered(s).Success?
    ensures var (number, data) := ReadNumbered(s).value;
      EncodeNumbered(number, data) == s && 0 < number < U64_LIMIT
  {
    Widths();
    BigEndianOfValue(s[..8]);
  }

  // ---------------------------------------------------------------- acks

  const ACK_WIDTHS: seq<nat> := [1, 8]

  lemma AckWidths()
    ensures Total(ACK_WIDTHS) == 9
  {
    assert ACK_WIDTHS[1..] == [8];
  }

  function EncodeAck(channel: Channel, id: nat): seq<byte> { Pack([channel.Code(), id], ACK_WIDTHS) }

  function ReadAck(s: seq<byte>): Result<(Channel, nat)> {
    if |s| < 9 then Failure(if |s| == 0 || (s[0] == 1 || s[0] == 2) then Truncated else BadPacket)
    else
      AckWidths(); UnpackInRange(s, ACK_WIDTHS); Widths();
      var f := Unpack(s, ACK_WIDTHS);
      if (f[0] != 1 && f[0] != 2) || f[1] == 0 || |s| != 9 then Failure(BadPacket)
      else Success((ChannelOf(f[0]), f[1]))
  }

  lemma AckInRange(s: seq<byte>)
    requires ReadAck(s).Success?
    ensures ReadAck(s).value.0.IsReliable() && 0 < ReadAck(s).value.1 < U64_LIMIT
  {
    AckWidths();
    Widths();
    UnpackInRange(s, ACK_WIDTHS);
  }

  // An ack is accepted exactly when it is the encoding of a reliable channel and a non-zero id.
  lemma AckRoundTrip(s: seq<byte>, channel: Channel, id: nat)
    requires id < U64_LIMIT
    ensures ReadAck(s) == Success((channel, id)) <==>
            s == EncodeAck(channel, id) && channel.IsReliable() && id != 0
  {
    AckWidths();
    Widths();
    if s == EncodeAck(channel, id) {
      UnpackOfPack([channel.Code(), id], ACK_WIDTHS, []);
      assert s == s + [];
    }
    if ReadAck(s) == Success((channel, id)) {
      PackOfUnpack(s, ACK_WIDTHS);
      UnpackInRange(s, ACK_WIDTHS);
      assert Unpack(s, ACK_WIDTHS) == [channel.Code(), id];
      assert s[..9] == s;
    }
  }

  // ------------------------------------------------------------------- packets

  datatype PacketHeader = PacketHeader(
    magic: nat, version: nat, kind: byte, flags: byte, connId: nat, sequence: nat, payloadLen: nat)

  const HEADER_WIDTHS: seq<nat> := [4, 2, 1, 1, 8, 8, 4]

  lemma HeaderWidths()
    ensures Total(HEADER_WIDTHS) == PACKET_HEADER_BYTES
  {
    assert HEADER_WIDTHS[1..] == [2, 1, 1, 8, 8, 4];
    assert [2, 1, 1, 8, 8, 4][1..] == [1, 1, 8, 8, 4];
    assert [1, 1, 8, 8, 4][1..] == [1, 8, 8, 4];
    assert [1, 8, 8, 4][1..] == [8, 8, 4];
    assert [8, 8, 4][1..] == [8, 4];
    assert [8, 4][1..] == [4];
  }

  function HeaderFields(h: PacketHeader): seq<nat> {
    [h.magic, h.version, h.kind, h.flags, h.connId, h.sequence, h.payloadLen]
  }

  ghost predicate HeaderInRange(h: PacketHeader) {
    h.magic < U32_LIMIT && h.version < U16_LIMIT && h.connId < U64_LIMIT && h.sequence < U64_LIMIT &&
    h.payloadLen < U32_LIMIT
  }

  function EncodeHeader(h: PacketHeader): seq<byte> { Pack(HeaderFields(h), HEADER_WIDTHS) }

  function ReadHeader(s: seq<byte>): (h: PacketHeader)
    requires |s| >= PACKET_HEADER_BYTES
    ensures HeaderInRange(h)
  {
    HeaderWidths(); UnpackInRange(s, HEADER_WIDTHS); Widths();
    var f := Unpack(s, HEADER_WIDTHS);
    PacketHeader(f[0], f[1], f[2], f[3], f[4], f[5], f[6])
  }

  function ValidateHeader(h: PacketHeader): Status {
    if h.magic != MAGIC then Err(BadPacket)
    else if h.version != PROTOCOL_VERSION then Err(UnsupportedVersion)
    else if h.kind > 4 then Err(BadPacket)
    else if h.flags > 1 then Err(BadPacket)
    else if h.payloadLen > MAX_PAYLOAD_BYTES then Err(BadPacket)
    else Ok
  }

  function PackPacket(h: PacketHeader, payload: seq<byte>, capacity: nat): Result<seq<byte>> {
    if |payload| > MAX_PAYLOAD_BYTES then Failure(InvalidArg)
    else if h.payloadLen != |payload| then Failure(InvalidArg)
    else
      var rc := ValidateHeader(h);
      if rc.Err? && rc.error != UnsupportedVersion then Failure(rc.error)
      else if capacity < PACKET_HEADER_BYTES + |payload| then Failure(Truncated)
      else Success(EncodeHeader(h) + payload)
  }

  function ParsePacket(s: seq<byte>): Result<(PacketHeader, seq<byte>)> {
    if |s| < PACKET_HEADER_BYTES then Failure(Truncated)
    else
      var h := ReadHeader(s);
      var rc := ValidateHeader(h);
      var rest := s[PACKET_HEADER_BYTES..];
      if rc.Err? then Failure(rc.error)
      else if |rest| < h.payloadLen then Failure(Truncated)
      else if |rest| != h.payloadLen then Failure(BadPacket)
      else Success((h, rest))
  }

  // What is packed at the current version parses back to the same header and payload, in 1300 bytes or fewer.
  lemma ParseOfPack(h: PacketHeader, payload: seq<byte>, capacity: nat)
    requires HeaderInRange(h)
    requires PackPacket(h, payload, capacity).Success? && h.version == PROTOCOL_VERSION
    ensures ParsePacket(PackPacket(h, payload, capacity).value) == Success((h, payload))
    ensures |PackPacket(h, payload, capacity).value| <= MAX_PACKET_BYTES
  {
    HeaderWidths();
    Widths();
    UnpackOfPack(HeaderFields(h), HEADER_WIDTHS, payload);
  }

  // Every datagram that parses is the packing of what it parsed to.
  lemma PackOfParse(s: seq<byte>)
    requires ParsePacket(s).Success?
    ensures var (h, payload) := ParsePacket(s).value;
      PackPacket(h, payload, MAX_PACKET_BYTES) == Success(s)
  {
    HeaderWidths();
    Widths();
    PackOfUnpack(s, HEADER_WIDTHS);
    UnpackInRange(s, HEADER_WIDTHS);
    var (h, payload) := ParsePacket(s).value;
    assert HeaderFields(h) == Unpack(s, HEADER_WIDTHS);
    assert s == s[..PACKET_HEADER_BYTES] + payload;
  }
}
