// From an application payload to the bytes of a datagram and back.
module Datagrams {
  import opened Config
  import opened Codec
  import opened Fragments
  import opened Outbound
  import opened Inbound
  import opened Connection

  // What the application's message is known by, and the bytes of it one datagram carries.
  datatype Content = Content(channel: Channel, kind: byte, number: nat, bytes: seq<byte>)

  // The bytes of the payload that travel in unit i.
  function Piece(rec: Record, i: nat): seq<byte>
    requires rec.WellFormed() && i < rec.Units()
  {
    if rec.Fragmented() then Slice(rec.payload, i) else rec.payload
  }

  // The frame that carries unit i, under reliable id `id` on a reliable channel.
  function FrameFor(rec: Record, i: nat, id: nat): Message
    requires rec.WellFormed() && i < rec.Units()
  {
    if rec.channel.IsReliable() then rec.TrackedFrame(i, id) else rec.FreeFrame(i)
  }

  // What a receiver reads in the body of a frame.
  function ReadBody(channel: Channel, kind: byte, data: seq<byte>): Result<Content> {
    if (channel.Control? || channel.IsReliable()) && kind == CONTROL_FRAGMENT && ReadFragment(data).Success? then
      var f := ReadFragment(data).value; Success(Content(f.channel, f.kind, f.deliverySequence, f.data))
    else if channel.ReliableOrdered? || channel.SequencedUnreliable? then
      match ReadNumbered(data)
      case Failure(e) => Failure(e)
      case Success((number, payload)) => Success(Content(channel, kind, number, payload))
    else Success(Content(channel, kind, 0, data))
  }

  function ReadContent(m: Message): Result<Content> {
    if m.channel.IsReliable() then
      match ReadNumbered(m.data)
      case Failure(e) => Failure(e)
      case Success((_, data)) => ReadBody(m.channel, m.kind, data)
    else ReadBody(m.channel, m.kind, m.data)
  }

  lemma BodyReadsBack(rec: Record, i: nat)
    requires rec.WellFormed() && NumbersFit(rec) && i < rec.Units() && Unambiguous(rec)
    ensures var channel := if rec.Fragmented() && !rec.channel.IsReliable() then Control else rec.channel;
      ReadBody(channel, rec.FrameKind(), rec.Body(i))
        == Success(Content(rec.channel, rec.kind, rec.number, Piece(rec, i)))
  {
    if rec.Fragmented() {
      BodyIsFragment(rec, i);
    } else if rec.number > 0 {
      ReadNumberedOfEncode(rec.number, rec.payload);
    }
  }

  lemma FrameReadsBack(rec: Record, i: nat, id: nat)
    requires rec.WellFormed() && NumbersFit(rec) && i < rec.Units() && Unambiguous(rec) && 0 < id < U64_LIMIT
    ensures |FrameFor(rec, i, id).data| <= MAX_MESSAGE_BYTES
    ensures |EncodeMessage(FrameFor(rec, i, id))| <= MAX_ENCRYPTED_PLAINTEXT_BYTES
    ensures ReadMessage(EncodeMessage(FrameFor(rec, i, id))) == Success((FrameFor(rec, i, id), []))
    ensures ReadContent(FrameFor(rec, i, id)) == Success(Content(rec.channel, rec.kind, rec.number, Piece(rec, i)))
  {
    var frame := FrameFor(rec, i, id);
    UnitFits(rec, i, id);
    ReadMessageOfEncode(frame, []);
    assert EncodeMessage(frame) + [] == EncodeMessage(frame);
    BodyReadsBack(rec, i);
    if rec.channel.IsReliable() { ReadNumberedOfEncode(id, rec.Body(i)); }
  }

  // Any unit of any message the sender accepts: its packet builds, into at most 1300 bytes; those parse to the
  // session's id and the packet's number; and the opened payload holds one frame with the message's channel, type and
  // number and the unit's bytes. `sealed` is the ciphertext and `open` its decryption.
  lemma DatagramRoundTrip(c: Conn, rec: Record, i: nat, id: nat, sealed: seq<byte>,
                          open: seq<byte> -> Option<seq<byte>>)
    requires rec.WellFormed() && NumbersFit(rec) && i < rec.Units() && Unambiguous(rec) && 0 < id < U64_LIMIT
    requires c.keyed && 0 < c.connId < U64_LIMIT && c.sequence < U64_LIMIT
    requires var plain := EncodeMessage(FrameFor(rec, i, id));
      |sealed| == |plain| + AEAD_TAG_BYTES && open(sealed) == Some(plain)
    ensures var built := Build(c, KIND_MESSAGE, true, Load(EncodeMessage(FrameFor(rec, i, id)), sealed));
      && built.Success? && |built.value| <= 1300
      && var parsed := ParsePacket(built.value);
      && parsed.Success? && parsed.value.0.connId == c.connId && parsed.value.0.sequence == c.sequence
      && parsed.value.0.kind == KIND_MESSAGE
      && var plain := open(parsed.value.1);
      && plain.Some?
      && var read := ReadMessage(plain.value);
      && read.Success? && read.value.1 == []
      && ReadContent(read.value.0) == Success(Content(rec.channel, rec.kind, rec.number, Piece(rec, i)))
  {
    var plain := EncodeMessage(FrameFor(rec, i, id));
    FrameReadsBack(rec, i, id);
    QueueFailsOnlyWhenFull(Settings(0, 0, 0, 0, 0), c, KIND_MESSAGE, true, Load(plain, sealed), Normal);
  }

  // The pieces of all units, end to end, are the payload.
  ghost function AllPieces(rec: Record, n: nat): seq<byte>
    requires rec.WellFormed() && n <= rec.Units()
  {
    if n == 0 then [] else AllPieces(rec, n - 1) + Piece(rec, n - 1)
  }

  lemma {:induction false} PiecesAreJoined(rec: Record, n: nat)
    requires rec.WellFormed() && rec.Fragmented() && n <= rec.Units()
    ensures AllPieces(rec, n) == Join(rec.payload, n)
  {
    if n > 0 { PiecesAreJoined(rec, n - 1); }
  }

  lemma PiecesAreThePayload(rec: Record)
    requires rec.WellFormed()
    ensures AllPieces(rec, rec.Units()) == rec.payload
  {
    if rec.Fragmented() {
      PiecesAreJoined(rec, rec.Units());
      JoinAll(rec.payload);
    } else {
      assert AllPieces(rec, 1) == AllPieces(rec, 0) + rec.payload;
    }
  }
}
