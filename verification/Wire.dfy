// The codecs as they run: field after field through the bounded cursors.
module Wire {
  import opened Config
  import opened Bytes
  import opened Codec

  // ---------------------------------------------------------------- the fields, unfolded

  // One field of a record and the rest of it.
  lemma PackFirst(v: nat, width: nat, values: seq<nat>, widths: seq<nat>)
    requires |values| == |widths|
    ensures Pack([v] + values, [width] + widths) == BigEndian(v, width) + Pack(values, widths)
  {
    assert ([v] + values)[1..] == values && ([width] + widths)[1..] == widths;
  }

  lemma UnpackFirst(s: seq<byte>, width: nat, widths: seq<nat>)
    requires |s| >= width + Total(widths)
    ensures Total([width] + widths) == width + Total(widths)
    ensures Unpack(s, [width] + widths) == [Value(s[..width])] + Unpack(s[width..], widths)
  {
    assert ([width] + widths)[1..] == widths;
  }

  lemma FrameBytes(m: Message)
    ensures EncodeMessage(m) == BigEndian(m.channel.Code(), 1) + BigEndian(m.kind, 1) + BigEndian(|m.data|, 2) + m.data
  {
    PackFirst(|m.data|, 2, [], []);
    PackFirst(m.kind, 1, [|m.data|], [2]);
    PackFirst(m.channel.Code(), 1, [m.kind, |m.data|], [1, 2]);
    assert [m.kind] + [|m.data|] == [m.kind, |m.data|] && [1] + [2] == [1, 2];
    assert [m.channel.Code()] + [m.kind, |m.data|] == [m.channel.Code(), m.kind, |m.data|];
    assert [1] + [1, 2] == FRAME_WIDTHS;
  }

  lemma FrameFields(s: seq<byte>)
    requires |s| >= MESSAGE_HEADER_BYTES
    ensures Total(FRAME_WIDTHS) <= |s|
    ensures Unpack(s, FRAME_WIDTHS) == [Value(s[..1]), Value(s[1..][..1]), Value(s[2..][..2])]
  {
    FrameWidths();
    assert FRAME_WIDTHS[1..] == [1, 2] && [1, 2][1..] == [2] && s[1..][1..] == s[2..];
    assert Unpack(s[2..], [2]) == [Value(s[2..][..2])] + Unpack(s[2..][2..], []);
  }

  lemma AckBytes(channel: Channel, id: nat)
    ensures EncodeAck(channel, id) == BigEndian(channel.Code(), 1) + BigEndian(id, 8)
  {
    assert [channel.Code(), id][1..] == [id] && ACK_WIDTHS[1..] == [8];
    assert Pack([id], [8]) == BigEndian(id, 8) + [];
  }

  lemma AckAfter(before: seq<byte>, channel: Channel, id: nat)
    ensures before + BigEndian(channel.Code(), 1) + BigEndian(id, 8) == before + EncodeAck(channel, id)
  {
    AckBytes(channel, id);
  }

  lemma AckFields(s: seq<byte>)
    requires |s| >= 9
    ensures Total(ACK_WIDTHS) <= |s| && Unpack(s, ACK_WIDTHS) == [Value(s[..1]), Value(s[1..][..8])]
  {
    AckWidths();
    assert ACK_WIDTHS[1..] == [8];
    assert Unpack(s[1..], [8]) == [Value(s[1..][..8])] + Unpack(s[1..][8..], []);
  }

  lemma HeaderBytes(h: PacketHeader)
    ensures EncodeHeader(h) ==
      BigEndian(h.magic, 4) + BigEndian(h.version, 2) + BigEndian(h.kind, 1) + BigEndian(h.flags, 1) +
      BigEndian(h.connId, 8) + BigEndian(h.sequence, 8) + BigEndian(h.payloadLen, 4)
  {
    HeaderTail(h);
    HeaderFront(h);
  }

  lemma HeaderTail(h: PacketHeader)
    ensures Pack([h.connId, h.sequence, h.payloadLen], [8, 8, 4]) ==
      BigEndian(h.connId, 8) + BigEndian(h.sequence, 8) + BigEndian(h.payloadLen, 4)
  {
    PackFirst(h.payloadLen, 4, [], []);
    PackFirst(h.sequence, 8, [h.payloadLen], [4]);
    PackFirst(h.connId, 8, [h.sequence, h.payloadLen], [8, 4]);
    assert [h.sequence] + [h.payloadLen] == [h.sequence, h.payloadLen] && [8] + [4] == [8, 4];
    assert [h.connId] + [h.sequence, h.payloadLen] == [h.connId, h.sequence, h.payloadLen] && [8] + [8, 4] == [8, 8, 4];
  }

  lemma HeaderMiddle(h: PacketHeader, rest: seq<nat>, widths: seq<nat>)
    requires |rest| == |widths|
    ensures Pack([h.kind] + ([h.flags] + rest), [1] + ([1] + widths)) ==
      BigEndian(h.kind, 1) + (BigEndian(h.flags, 1) + Pack(rest, widths))
  {
    PackFirst(h.flags, 1, rest, widths);
    PackFirst(h.kind, 1, [h.flags] + rest, [1] + widths);
  }

  lemma HeaderFront(h: PacketHeader)
    ensures EncodeHeader(h) == BigEndian(h.magic, 4) + (BigEndian(h.version, 2) + (BigEndian(h.kind, 1) +
      (BigEndian(h.flags, 1) + Pack([h.connId, h.sequence, h.payloadLen], [8, 8, 4]))))
  {
    var three, widths := [h.connId, h.sequence, h.payloadLen], [8, 8, 4];
    HeaderMiddle(h, three, widths);
    var five, widths5 := [h.kind] + ([h.flags] + three), [1] + ([1] + widths);
    PackFirst(h.version, 2, five, widths5);
    PackFirst(h.magic, 4, [h.version] + five, [2] + widths5);
    assert HeaderFields(h) == [h.magic] + ([h.version] + five);
    assert HEADER_WIDTHS == [4] + ([2] + widths5);
  }

  lemma HeaderAfter(before: seq<byte>, h: PacketHeader)
    ensures before + BigEndian(h.magic, 4) + BigEndian(h.version, 2) + BigEndian(h.kind, 1) + BigEndian(h.flags, 1) +
      BigEndian(h.connId, 8) + BigEndian(h.sequence, 8) + BigEndian(h.payloadLen, 4) == before + EncodeHeader(h)
  {
    HeaderBytes(h);
  }

  lemma FrameAfter(before: seq<byte>, m: Message)
    ensures before + BigEndian(m.channel.Code(), 1) + BigEndian(m.kind, 1) + BigEndian(|m.data|, 2) + m.data
         == before + EncodeMessage(m)
  {
    FrameBytes(m);
  }

  lemma OneByte(b: byte)
    ensures BigEndian(b, 1) == [b]
  {
    assert BigEndian(b, 1) == BigEndian(b / 256, 0) + [b % 256];
  }

  // --------------------------------------------------------------------------- writing

  // write_message
  method WriteMessage(w: ByteWriter, m: Message) returns (rc: Status)
    requires w.Valid() && |m.data| < U16_LIMIT
    modifies w`off, w.dst
    ensures w.Valid()
    ensures rc.Ok? <==> |m.data| <= MAX_MESSAGE_BYTES && |EncodeMessage(m)| <= old(w.Remaining())
    ensures rc.Ok? ==> w.Written() == old(w.Written()) + EncodeMessage(m)
  {
    ghost var before := w.Written();
    FrameWidths();
    FrameAfter(before, m);
    OneByte(m.channel.Code());
    OneByte(m.kind);
    if |m.data| > MAX_MESSAGE_BYTES { return Err(InvalidArg); }
    rc := w.WriteU8(m.channel.Code());
    if rc.Err? { return; }
    rc := w.WriteU8(m.kind);
    if rc.Err? { return; }
    rc := w.WriteU16(|m.data|);
    if rc.Err? { return; }
    rc := w.WriteBytes(m.data);
  }

  // write_reliable_payload, write_ordered_payload and write_sequenced_payload, with the limit of the mode
  method WriteNumbered(w: ByteWriter, number: nat, data: seq<byte>, limit: nat) returns (rc: Status)
    requires w.Valid() && number < U64_LIMIT
    modifies w`off, w.dst
    ensures w.Valid()
    ensures rc.Ok? <==> number != 0 && |data| <= limit && |EncodeNumbered(number, data)| <= old(w.Remaining())
    ensures rc.Ok? ==> w.Written() == old(w.Written()) + EncodeNumbered(number, data)
  {
    if number == 0 || |data| > limit { return Err(InvalidArg); }
    rc := w.WriteU64(number);
    if rc.Err? { return; }
    rc := w.WriteBytes(data);
  }

  // write_reliable_ack
  method WriteAck(w: ByteWriter, channel: Channel, id: nat) returns (rc: Status)
    requires w.Valid() && id < U64_LIMIT
    modifies w`off, w.dst
    ensures w.Valid()
    ensures rc.Ok? <==> channel.IsReliable() && id != 0 && old(w.Remaining()) >= 9
    ensures rc.Ok? ==> w.Written() == old(w.Written()) + EncodeAck(channel, id)
  {
    ghost var before := w.Written();
    AckAfter(before, channel, id);
    OneByte(channel.Code());
    if !channel.IsReliable() || id == 0 { return Err(InvalidArg); }
    rc := w.WriteU8(channel.Code());
    if rc.Err? { return; }
    rc := w.WriteU64(id);
  }

  // write_packet_header
  method WritePacketHeader(w: ByteWriter, h: PacketHeader) returns (rc: Status)
    requires w.Valid() && HeaderInRange(h)
    modifies w`off, w.dst
    ensures w.Valid()
    ensures rc.Ok? <==> old(w.Remaining()) >= PACKET_HEADER_BYTES
    ensures rc.Ok? ==> w.Written() == old(w.Written()) + EncodeHeader(h)
  {
    ghost var before := w.Written();
    HeaderAfter(before, h);
    OneByte(h.kind);
    OneByte(h.flags);
    rc := w.WriteU32(h.magic);
    if rc.Err? { return; }
    rc := w.WriteU16(h.version);
    if rc.Err? { return; }
    rc := w.WriteU8(h.kind);
    if rc.Err? { return; }
    rc := w.WriteU8(h.flags);
    if rc.Err? { return; }
    rc := w.WriteU64(h.connId);
    if rc.Err? { return; }
    rc := w.WriteU64(h.sequence);
    if rc.Err? { return; }
    rc := w.WriteU32(h.payloadLen);
  }

  // pack_packet
  method PackInto(h: PacketHeader, payload: seq<byte>, out: array<byte>) returns (r: Result<nat>)
    requires HeaderInRange(h)
    modifies out
    ensures var packed := PackPacket(h, payload, out.Length);
      if packed.Success? then r.Success? && r.value <= out.Length && out[..r.value] == packed.value
      else r == Failure(packed.error)
  {
    if |payload| > MAX_PAYLOAD_BYTES || h.payloadLen != |payload| { return Failure(InvalidArg); }
    var valid := ValidateHeader(h);
    if valid.Err? && valid.error != UnsupportedVersion { return Failure(valid.error); }
    if out.Length < PACKET_HEADER_BYTES + |payload| { return Failure(Truncated); }
    var w := new ByteWriter(out);
    var rc := WritePacketHeader(w, h);
    rc := w.WriteBytes(payload);
    return Success(w.off);
  }

  // --------------------------------------------------------------------------- reading

  // read_message; the frame's bytes are left behind
  method ReadFrame(r: ByteReader) returns (m: Result<Message>)
    requires r.Valid()
    modifies r`off
    ensures r.Valid()
    ensures match ReadMessage(old(r.Rest()))
      case Success((read, rest)) => m == Success(read) && r.Rest() == rest
      case Failure(e) => m == Failure(e)
  {
    ghost var s := r.Rest();
    if r.Remaining() == 0 { return Failure(EndOfStream); }
    if r.Remaining() < MESSAGE_HEADER_BYTES { return Failure(BadPacket); }
    FrameFields(s);
    var rc, code := r.ReadU8();
    var kind: byte, length: nat;
    rc, kind := r.ReadU8();
    rc, length := r.ReadU16();
    if code > 4 || length > r.Remaining() { return Failure(BadPacket); }
    assert r.Rest() == s[MESSAGE_HEADER_BYTES..];
    var data: seq<byte>;
    rc, data := r.ReadBytes(length);
    return Success(Message(ChannelOf(code), kind, data));
  }

  // read_reliable_payload and its like: a number and all the bytes that are left
  method ReadEnvelope(r: ByteReader) returns (read: Result<(nat, seq<byte>)>)
    requires r.Valid()
    modifies r`off
    ensures r.Valid() && read == ReadNumbered(old(r.Rest())) && (read.Success? ==> r.Rest() == [])
  {
    if r.Remaining() < 8 { return Failure(BadPacket); }
    var rc, number := r.ReadU64();
    if number == 0 { return Failure(BadPacket); }
    if r.Remaining() >= U16_LIMIT { return Failure(BadPacket); }
    var data: seq<byte>;
    ghost var left := r.Rest();
    assert left[..|left|] == left;
    rc, data := r.ReadBytes(r.Remaining());
    return Success((number, data));
  }

  // read_reliable_ack
  method ReadReceipt(r: ByteReader) returns (ack: Result<(Channel, nat)>)
    requires r.Valid()
    modifies r`off
    ensures r.Valid() && ack == ReadAck(old(r.Rest()))
  {
    ghost var s := r.Rest();
    var rc, code := r.ReadU8();
    if rc.Err? { return Failure(Truncated); }
    assert code == s[0];
    if code != 1 && code != 2 { return Failure(BadPacket); }
    var id: nat;
    rc, id := r.ReadU64();
    if rc.Err? { return Failure(Truncated); }
    AckFields(s);
    if id == 0 || r.Remaining() != 0 { return Failure(BadPacket); }
    return Success((ChannelOf(code), id));
  }

  const TAIL: seq<nat> := [8] + ([8] + ([4] + []))

  lemma TailUnpacked(s: seq<byte>)
    requires |s| >= 20
    ensures Total(TAIL) == 20
    ensures Unpack(s, TAIL) == [Value(s[..8])] + ([Value(s[8..][..8])] + ([Value(s[16..][..4])] + []))
  {
    assert s[8..][8..] == s[16..];
    UnpackFirst(s[16..], 4, []);
    UnpackFirst(s[8..], 8, [4] + []);
    UnpackFirst(s, 8, [8] + ([4] + []));
  }

  lemma FrontUnpacked(s: seq<byte>)
    requires |s| >= 4 + Total(TAIL)
    ensures Total([1] + ([1] + TAIL)) == 2 + Total(TAIL)
    ensures Unpack(s[2..], [1] + ([1] + TAIL)) == [Value(s[2..][..1])] + ([Value(s[3..][..1])] + Unpack(s[4..], TAIL))
  {
    assert s[2..][1..] == s[3..] && s[3..][1..] == s[4..];
    UnpackFirst(s[3..], 1, TAIL);
    UnpackFirst(s[2..], 1, [1] + TAIL);
  }

  lemma HeaderUnpacked(s: seq<byte>)
    requires |s| >= PACKET_HEADER_BYTES
    ensures Total(HEADER_WIDTHS) <= |s| && Total(TAIL) == 20
    ensures Unpack(s, HEADER_WIDTHS) ==
      [Value(s[..4])] + ([Value(s[4..][..2])] + ([Value(s[6..][..1])] + ([Value(s[7..][..1])] + Unpack(s[8..], TAIL))))
  {
    assert s[4..][2..] == s[6..] && s[4..][3..] == s[7..] && s[4..][4..] == s[8..];
    TailUnpacked(s[8..]);
    FrontUnpacked(s[4..]);
    UnpackFirst(s[4..], 2, [1] + ([1] + TAIL));
    UnpackFirst(s, 4, [2] + ([1] + ([1] + TAIL)));
    assert HEADER_WIDTHS == [4] + ([2] + ([1] + ([1] + TAIL)));
  }

  lemma HeaderFieldsRead(s: seq<byte>, h: PacketHeader)
    requires |s| >= PACKET_HEADER_BYTES
    requires h.magic == Value(s[..4]) && h.version == Value(s[4..][..2]) && h.kind == Value(s[6..][..1])
    requires h.flags == Value(s[7..][..1]) && h.connId == Value(s[8..][..8]) && h.sequence == Value(s[16..][..8])
    requires h.payloadLen == Value(s[24..][..4])
    ensures ReadHeader(s) == h
  {
    HeaderUnpacked(s);
    TailUnpacked(s[8..]);
    assert s[8..][8..] == s[16..] && s[8..][16..] == s[24..];
  }

  // read_packet_header
  method ReadPacketHeader(r: ByteReader) returns (h: PacketHeader)
    requires r.Valid() && r.Remaining() >= PACKET_HEADER_BYTES
    modifies r`off
    ensures r.Valid() && h == ReadHeader(old(r.Rest())) && r.Rest() == old(r.Rest())[PACKET_HEADER_BYTES..]
  {
    ghost var s := r.Rest();
    var rc, magic := r.ReadU32();
    var version: nat, kind: byte, flags: byte, connId: nat, sequence: nat, length: nat;
    rc, version := r.ReadU16();
    assert r.Rest() == s[6..];
    rc, kind := r.ReadU8();
    assert r.Rest() == s[7..];
    rc, flags := r.ReadU8();
    assert r.Rest() == s[8..];
    rc, connId := r.ReadU64();
    assert r.Rest() == s[16..];
    rc, sequence := r.ReadU64();
    assert r.Rest() == s[24..];
    rc, length := r.ReadU32();
    h := PacketHeader(magic, version, kind, flags, connId, sequence, length);
    HeaderFieldsRead(s, h);
  }

  // parse_packet
  method Parse(s: seq<byte>) returns (r: Result<(PacketHeader, seq<byte>)>)
    ensures r == ParsePacket(s)
  {
    if |s| < PACKET_HEADER_BYTES { return Failure(Truncated); }
    var reader := new ByteReader(s);
    var h := ReadPacketHeader(reader);
    var rc := ValidateHeader(h);
    if rc.Err? { return Failure(rc.error); }
    if reader.Remaining() < h.payloadLen { return Failure(Truncated); }
    if reader.Remaining() != h.payloadLen { return Failure(BadPacket); }
    return Success((h, s[reader.off..]));
  }
}
