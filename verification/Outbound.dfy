// The sending side of a connection: messages are numbered, split into units, enveloped and queued.
module Outbound {
  import opened Config
  import opened Codec
  import opened Fragments
  import R = Reassembly
  import S = Session
  import O = Ordered

  // --------------------------------------------------------------- what was sent

  // A message that took a number or a fragment id when it was sent; 0 stands for none.
  datatype Record = Record(channel: Channel, kind: byte, payload: seq<byte>, number: nat, fragmentId: nat) {
    predicate Fragmented() { |payload| > channel.MaxInline() }

    predicate WellFormed() {
      && channel.IsApplication() && |payload| < U16_LIMIT
      && (number > 0 <==> channel.ReliableOrdered? || channel.SequencedUnreliable?)
      && (fragmentId > 0 <==> Fragmented())
    }

    function Units(): nat { if Fragmented() then Count(|payload|) else 1 }

    function AsWhole(): R.Whole { R.Whole(fragmentId, number, channel, kind, payload) }

    // The bytes of unit i inside its delivery envelope.
    function Body(i: nat): seq<byte>
      requires WellFormed() && i < Units()
    {
      if Fragmented() then EncodeFragment(R.FragmentOf(AsWhole(), i))
      else if number > 0 then EncodeNumbered(number, payload)
      else payload
    }

    function FrameKind(): byte { if Fragmented() then CONTROL_FRAGMENT else kind }

    function FreeFrame(i: nat): Message
      requires WellFormed() && i < Units()
    {
      Message(if Fragmented() then Control else channel, FrameKind(), Body(i))
    }

    function TrackedFrame(i: nat, id: nat): Message
      requires WellFormed() && i < Units()
    {
      Message(channel, FrameKind(), EncodeNumbered(id, Body(i)))
    }
  }

  // Unit `index` of the send-th message.
  datatype Unit = Unit(send: nat, index: nat)

  datatype Tag = Free(unit: Unit) | Tracked(channel: Channel, id: nat) | Receipt(channel: Channel, id: nat) | Bare

  // The plaintext of a packet with where it came from; Bare packets carry no frames.
  datatype Parcel = Parcel(bytes: seq<byte>, tag: Tag)

  // Every encoder check on the way to a packet passes, and the plaintext fits the largest packet
  // (Datagrams.DatagramRoundTrip: the datagram is at most 1300 bytes).
  lemma UnitFits(rec: Record, i: nat, id: nat)
    requires rec.WellFormed() && i < rec.Units()
    ensures rec.channel.IsReliable() ==>
      && |rec.Body(i)| <= MAX_RELIABLE_MESSAGE_BYTES
      && |rec.TrackedFrame(i, id).data| <= MAX_MESSAGE_BYTES
      && |EncodeMessage(rec.TrackedFrame(i, id))| <= MAX_ENCRYPTED_PLAINTEXT_BYTES
    ensures !rec.channel.IsReliable() ==>
      && |rec.FreeFrame(i).data| <= MAX_MESSAGE_BYTES
      && |EncodeMessage(rec.FreeFrame(i))| <= MAX_ENCRYPTED_PLAINTEXT_BYTES
  {
    FrameWidths();
    FragmentWidths();
    if rec.Fragmented() { Layout(|rec.payload|, i); }
  }

  // ------------------------------------------------------------------- the sender

  datatype Sender = Sender(
    cfg: FragmentationConfig, seqNo: nat, nextFragment: nat, nextOrdered: nat, nextSequenced: nat,
    reliable: S.State, ordered: S.State,
    // history: the messages sent, every packet ever built by its number, and the unit each reliable id carries
    sends: seq<Record>, wire: map<nat, Parcel>, issued: map<(Channel, nat), Unit>)
  {
    function Session(channel: Channel): S.State { if channel.ReliableOrdered? then ordered else reliable }

    function With(channel: Channel, session: S.State): Sender {
      if channel.ReliableOrdered? then this.(ordered := session) else this.(reliable := session)
    }
  }

  // queue_internal_message and queue_packet: the packet number is spent even when the packet queue is full.
  function QueueFrame(s: Sender, m: Message, tag: Tag, room: bool): (Sender, Status) {
    if |m.data| > MAX_MESSAGE_BYTES then (s, Err(InvalidArg))
    else if |EncodeMessage(m)| > MAX_ENCRYPTED_PLAINTEXT_BYTES then (s, Err(InvalidArg))
    else
      var s1 := s.(seqNo := s.seqNo + 1);
      if !room then (s1, Err(QueueFull))
      else (s1.(wire := s.wire[s.seqNo := Parcel(EncodeMessage(m), tag)]), Ok)
  }

  // What the caller and the surroundings contribute to one send.
  datatype Env = Env(priority: Priority, lifetime: nat, clock: nat -> nat, room: nat -> bool)

  // The second half of send_reliable_message: the message p was enqueued and its packet is queued or not.
  function Settle(session: S.State, id: nat, later: nat, queued: bool): S.State
    requires S.Valid(session)
  {
    if queued then S.NoteSentMessage(session, id, later).0 else S.AcknowledgeMessage(session, id, later).0
  }

  function Post(s: Sender, channel: Channel, session: S.State, p: S.Pending, u: Unit, later: nat, room: bool)
    : (Sender, Status)
    requires S.Valid(session)
  {
    var s1 := s.With(channel, session).(issued := s.issued[(channel, p.id) := u]);
    var (s2, rc) := QueueFrame(s1, Message(channel, p.kind, p.encoded), Tracked(channel, p.id), room);
    (s2.With(channel, Settle(session, p.id, later, rc.Ok?)), rc)
  }

  // send_reliable_message for unit u, which is the env's u.index-th packet.
  function SendReliable(s: Sender, channel: Channel, kind: byte, data: seq<byte>, u: Unit, env: Env): (Sender, Status)
    requires S.Valid(s.Session(channel)) && |data| < U16_LIMIT
  {
    if |data| > MAX_RELIABLE_MESSAGE_BYTES then (s, Err(TooLarge))
    else
      var now := env.clock(2 * u.index);
      S.EnqueueKeepsValid(s.Session(channel), kind, data, env.priority, env.lifetime, now);
      var (session, r) := S.EnqueueMessage(s.Session(channel), kind, data, env.priority, env.lifetime, now);
      if r.Failure? then (s.With(channel, session), Err(r.error))
      else Post(s, channel, session, r.value, u, env.clock(2 * u.index + 1), env.room(u.index))
  }

  ghost predicate SessionsValid(s: Sender) { S.Valid(s.reliable) && S.Valid(s.ordered) }

  function SendUnit(s: Sender, rec: Record, i: nat, env: Env): (Sender, Status)
    requires SessionsValid(s) && s.sends != [] && rec.WellFormed() && i < rec.Units()
  {
    var u := Unit(|s.sends| - 1, i);
    UnitFits(rec, i, 0);
    if rec.channel.IsReliable() then SendReliable(s, rec.channel, rec.FrameKind(), rec.Body(i), u, env)
    else QueueFrame(s, rec.FreeFrame(i), Free(u), env.room(i))
  }

  // The loop of send_fragmented; an inline message is the one-unit case.
  function SendUnits(s: Sender, rec: Record, i: nat, env: Env): (Sender, Status)
    requires SessionsValid(s) && s.sends != [] && rec.WellFormed() && i <= rec.Units()
    decreases rec.Units() - i
  {
    if i == rec.Units() then (s, Ok)
    else
      var (s1, rc) := SendUnit(s, rec, i, env);
      SendUnitKeeps(s, rec, i, env);
      if rc.Err? then (s1, rc) else SendUnits(s1, rec, i + 1, env)
  }

  // The number and the fragment id a message takes.
  function RecordFor(s: Sender, channel: Channel, kind: byte, payload: seq<byte>): Record {
    Record(channel, kind, payload,
           if channel.ReliableOrdered? then s.nextOrdered
           else if channel.SequencedUnreliable? then s.nextSequenced else 0,
           if |payload| > channel.MaxInline() then s.nextFragment else 0)
  }

  function Begin(s: Sender, rec: Record): Sender {
    s.(sends := s.sends + [rec],
       nextOrdered := s.nextOrdered + (if rec.channel.ReliableOrdered? then 1 else 0),
       nextSequenced := s.nextSequenced + (if rec.channel.SequencedUnreliable? then 1 else 0),
       nextFragment := s.nextFragment + (if rec.Fragmented() then 1 else 0))
  }

  // send() on an established connection.
  function Send(s: Sender, channel: Channel, kind: byte, payload: seq<byte>, env: Env): (Sender, Status)
    requires SessionsValid(s) && s.nextOrdered > 0 && s.nextSequenced > 0 && s.nextFragment > 0
  {
    if !channel.IsApplication() then (s, Err(InvalidArg))
    else if |payload| >= U16_LIMIT then (s, Err(TooLarge))
    else
      var rec := RecordFor(s, channel, kind, payload);
      if rec.Fragmented() && !s.cfg.enabled then (s, Err(TooLarge))
      else if rec.Fragmented() && |payload| > s.cfg.maxReassembledMessageBytes then (s, Err(TooLarge))
      else if rec.Fragmented() && (Count(|payload|) == 0 || Count(|payload|) > s.cfg.maxFragmentsPerMessage) then
        (s, Err(TooLarge))
      else SendUnits(Begin(s, rec), rec, 0, env)
  }

  // pump_reliable: every message resend_due hands out goes into a fresh packet.
  function Repost(s: Sender, channel: Channel, sent: seq<S.Pending>): Sender
    decreases |sent|
  {
    if sent == [] then s
    else
      var p := sent[0];
      var (s1, _) := QueueFrame(s, Message(channel, p.kind, p.encoded), Tracked(channel, p.id), true);
      Repost(s1, channel, sent[1..])
  }

  // A packet that found no room has spent its number all the same.
  function Skip(s: Sender): Sender { s.(seqNo := s.seqNo + 1) }

  // The message that finds no room ends the pass.
  function Pump(s: Sender, channel: Channel, now: nat, queued: nat -> bool): Sender {
    var session := S.ExpireOldMessages(s.Session(channel), now);
    var (session', sent, ok) := S.ResendDueMessages(session, now, queued);
    var s' := Repost(s.With(channel, session'), channel, sent);
    if ok then s' else Skip(s')
  }

  // --------------------------------------------------------------------- invariant

  ghost predicate UnitOk(s: Sender, u: Unit) {
    u.send < |s.sends| && s.sends[u.send].WellFormed() && u.index < s.sends[u.send].Units()
  }

  ghost predicate IssueOk(s: Sender, channel: Channel, id: nat)
    requires (channel, id) in s.issued
  {
    var u := s.issued[(channel, id)];
    && channel.IsReliable() && 0 < id < s.Session(channel).nextId
    && UnitOk(s, u) && s.sends[u.send].channel == channel
  }

  ghost predicate ParcelOk(s: Sender, parcel: Parcel) {
    match parcel.tag
    case Free(u) =>
      UnitOk(s, u) && !s.sends[u.send].channel.IsReliable() &&
      parcel.bytes == EncodeMessage(s.sends[u.send].FreeFrame(u.index))
    case Tracked(channel, id) =>
      (channel, id) in s.issued && IssueOk(s, channel, id) &&
      var u := s.issued[(channel, id)];
      parcel.bytes == EncodeMessage(s.sends[u.send].TrackedFrame(u.index, id))
    case Receipt(channel, id) =>
      channel.IsReliable() && 0 < id < U64_LIMIT &&
      parcel.bytes == EncodeMessage(Message(Control, CONTROL_ACK, EncodeAck(channel, id)))
    case Bare => parcel.bytes == []
  }

  // A queued reliable message holds the bytes of the unit its id was issued for.
  ghost predicate Carries(s: Sender, channel: Channel, id: nat, kind: byte, encoded: seq<byte>) {
    (channel, id) in s.issued && IssueOk(s, channel, id) &&
    var u := s.issued[(channel, id)];
    Message(channel, kind, encoded) == s.sends[u.send].TrackedFrame(u.index, id)
  }

  ghost function Carrying(s: Sender, channel: Channel): (nat, byte, seq<byte>) -> bool {
    (id: nat, kind: byte, encoded: seq<byte>) => Carries(s, channel, id, kind, encoded)
  }

  ghost predicate AllCarry(s: Sender, channel: Channel, q: seq<S.Pending>) {
    forall i | 0 <= i < |q| :: Carries(s, channel, q[i].id, q[i].kind, q[i].encoded)
  }

  // The unit is in no packet and has no reliable id yet.
  ghost predicate Unused(s: Sender, u: Unit) {
    && (forall n | n in s.wire :: s.wire[n].tag != Free(u))
    && (forall key | key in s.issued :: s.issued[key] != u)
  }

  ghost predicate UnusedFrom(s: Sender, send: nat, index: nat) {
    forall u: Unit | u.send == send && u.index >= index :: Unused(s, u)
  }

  ghost predicate WireOk(s: Sender) {
    && (forall n | n in s.wire :: 0 < n < s.seqNo && ParcelOk(s, s.wire[n]))
    && (forall n, m | n in s.wire && m in s.wire && n != m && s.wire[n].tag.Free? :: s.wire[n].tag != s.wire[m].tag)
  }

  ghost predicate IssuesOk(s: Sender) {
    && (forall key | key in s.issued :: IssueOk(s, key.0, key.1))
    && (forall key, key' | key in s.issued && key' in s.issued && key != key' :: s.issued[key] != s.issued[key'])
  }

  ghost predicate LinksOk(s: Sender) {
    && s.seqNo > 0 && WireOk(s) && IssuesOk(s)
    && AllCarry(s, Reliable, s.reliable.pending) && AllCarry(s, ReliableOrdered, s.ordered.pending)
  }

  // What sending one unit leaves alone.
  ghost predicate SameBook(s: Sender, s': Sender) {
    && s'.sends == s.sends && s'.cfg == s.cfg
    && s'.nextOrdered == s.nextOrdered && s'.nextSequenced == s.nextSequenced && s'.nextFragment == s.nextFragment
  }

  lemma SettleValid(session: S.State, id: nat, later: nat, queued: bool)
    requires S.Valid(session)
    ensures S.Valid(Settle(session, id, later, queued))
  {
    S.AcknowledgeKeepsValid(session, id, later);
    S.NoteSentKeepsValid(session, id, later);
  }

  lemma WithValid(s: Sender, channel: Channel, session: S.State)
    requires SessionsValid(s) && S.Valid(session)
    ensures SessionsValid(s.With(channel, session))
  {
  }

  lemma PostKeeps(s: Sender, channel: Channel, session: S.State, p: S.Pending, u: Unit, later: nat, room: bool)
    requires SessionsValid(s) && S.Valid(session)
    ensures var s' := Post(s, channel, session, p, u, later, room).0; SessionsValid(s') && SameBook(s, s')
  {
    var m := Message(channel, p.kind, p.encoded);
    var s1 := s.With(channel, session).(issued := s.issued[(channel, p.id) := u]);
    var (s2, rc) := QueueFrame(s1, m, Tracked(channel, p.id), room);
    SettleValid(session, p.id, later, rc.Ok?);
    WithValid(s, channel, session);
    WithValid(s2, channel, Settle(session, p.id, later, rc.Ok?));
  }

  lemma RefusedKeeps(s: Sender, channel: Channel, session: S.State)
    requires SessionsValid(s) && S.Valid(session)
    ensures var s' := s.With(channel, session); SessionsValid(s') && SameBook(s, s')
  {
  }

  lemma SendReliableKeeps(s: Sender, channel: Channel, kind: byte, data: seq<byte>, u: Unit, env: Env)
    requires SessionsValid(s) && |data| < U16_LIMIT
    ensures var s' := SendReliable(s, channel, kind, data, u, env).0; SessionsValid(s') && SameBook(s, s')
  {
    if |data| <= MAX_RELIABLE_MESSAGE_BYTES {
      var now := env.clock(2 * u.index);
      S.EnqueueKeepsValid(s.Session(channel), kind, data, env.priority, env.lifetime, now);
      var (session, r) := S.EnqueueMessage(s.Session(channel), kind, data, env.priority, env.lifetime, now);
      if r.Failure? {
        RefusedKeeps(s, channel, session);
      } else {
        PostKeeps(s, channel, session, r.value, u, env.clock(2 * u.index + 1), env.room(u.index));
      }
    }
  }

  lemma SendUnitKeeps(s: Sender, rec: Record, i: nat, env: Env)
    requires SessionsValid(s) && s.sends != [] && rec.WellFormed() && i < rec.Units()
    ensures var s' := SendUnit(s, rec, i, env).0; SessionsValid(s') && SameBook(s, s')
  {
    UnitFits(rec, i, 0);
    if rec.channel.IsReliable() {
      SendReliableKeeps(s, rec.channel, rec.FrameKind(), rec.Body(i), Unit(|s.sends| - 1, i), env);
    }
  }

  // ------------------------------------------------------- the links survive every step

  // A sender with the same messages and ids, and session counters no lower, accepts the same parcels.
  ghost predicate Extends(s: Sender, s': Sender) {
    && |s.sends| <= |s'.sends| && (forall j | 0 <= j < |s.sends| :: s'.sends[j] == s.sends[j])
    && (forall key | key in s.issued :: key in s'.issued && s'.issued[key] == s.issued[key])
    && s.reliable.nextId <= s'.reliable.nextId && s.ordered.nextId <= s'.ordered.nextId
  }

  lemma ExtendsIssue(s: Sender, s': Sender, channel: Channel, id: nat)
    requires Extends(s, s') && (channel, id) in s.issued && IssueOk(s, channel, id)
    ensures IssueOk(s', channel, id)
  {
  }

  lemma ExtendsParcel(s: Sender, s': Sender, parcel: Parcel)
    requires Extends(s, s') && ParcelOk(s, parcel)
    ensures ParcelOk(s', parcel)
  {
    if parcel.tag.Tracked? { ExtendsIssue(s, s', parcel.tag.channel, parcel.tag.id); }
  }

  lemma ExtendsCarry(s: Sender, s': Sender, channel: Channel, q: seq<S.Pending>)
    requires Extends(s, s') && AllCarry(s, channel, q)
    ensures AllCarry(s', channel, q)
  {
    forall i | 0 <= i < |q| ensures Carries(s', channel, q[i].id, q[i].kind, q[i].encoded) {
      assert Carries(s, channel, q[i].id, q[i].kind, q[i].encoded);
      ExtendsIssue(s, s', channel, q[i].id);
    }
  }

  // Nothing new on the wire and no new id.
  lemma ExtendsLinks(s: Sender, s': Sender)
    requires LinksOk(s) && Extends(s, s')
    requires s'.wire == s.wire && s'.seqNo >= s.seqNo && s'.issued == s.issued
    requires AllCarry(s', Reliable, s'.reliable.pending) && AllCarry(s', ReliableOrdered, s'.ordered.pending)
    ensures LinksOk(s')
  {
    forall n | n in s'.wire ensures ParcelOk(s', s'.wire[n]) { ExtendsParcel(s, s', s.wire[n]); }
    forall key | key in s'.issued ensures IssueOk(s', key.0, key.1) {
      assert key == (key.0, key.1);
      ExtendsIssue(s, s', key.0, key.1);
    }
  }

  lemma WithLinks(s: Sender, channel: Channel, session: S.State)
    requires LinksOk(s) && channel.IsReliable() && session.nextId >= s.Session(channel).nextId
    requires AllCarry(s, channel, session.pending)
    ensures LinksOk(s.With(channel, session)) && Extends(s, s.With(channel, session))
  {
    var s' := s.With(channel, session);
    ExtendsCarry(s, s', channel, session.pending);
    ExtendsCarry(s, s', Reliable, s.reliable.pending);
    ExtendsCarry(s, s', ReliableOrdered, s.ordered.pending);
    ExtendsLinks(s, s');
  }

  lemma BeginLinks(s: Sender, rec: Record)
    requires LinksOk(s)
    ensures LinksOk(Begin(s, rec)) && Extends(s, Begin(s, rec))
    ensures UnusedFrom(Begin(s, rec), |s.sends|, 0)
  {
    var s' := Begin(s, rec);
    ExtendsCarry(s, s', Reliable, s.reliable.pending);
    ExtendsCarry(s, s', ReliableOrdered, s.ordered.pending);
    ExtendsLinks(s, s');
    forall u: Unit | u.send == |s.sends| ensures Unused(s', u) {
      forall key | key in s.issued ensures s.issued[key].send < |s.sends| {
        assert key == (key.0, key.1) && IssueOk(s, key.0, key.1);
      }
      forall n | n in s.wire ensures s.wire[n].tag != Free(u) { assert ParcelOk(s, s.wire[n]); }
    }
  }

  // A parcel under the next number, or a number spent for nothing.
  ghost predicate Wired(s: Sender, s': Sender, parcel: Parcel) {
    s' == s.(seqNo := s'.seqNo, wire := s'.wire) && s'.seqNo >= s.seqNo &&
    (s'.wire == s.wire || (s'.seqNo == s.seqNo + 1 && s'.wire == s.wire[s.seqNo := parcel]))
  }

  lemma WiredOk(s: Sender, s': Sender, parcel: Parcel)
    requires s.seqNo > 0 && WireOk(s) && Wired(s, s', parcel) && ParcelOk(s, parcel)
    requires parcel.tag.Free? ==> Unused(s, parcel.tag.unit)
    ensures WireOk(s')
  {
    forall n | n in s'.wire ensures 0 < n < s'.seqNo && ParcelOk(s', s'.wire[n]) {
      if n in s.wire { ExtendsParcel(s, s', s.wire[n]); }
      ExtendsParcel(s, s', parcel);
    }
  }

  lemma WiredLinks(s: Sender, s': Sender, parcel: Parcel)
    requires LinksOk(s) && Wired(s, s', parcel) && ParcelOk(s, parcel)
    requires parcel.tag.Free? ==> Unused(s, parcel.tag.unit)
    ensures LinksOk(s') && Extends(s, s')
  {
    WiredOk(s, s', parcel);
    ExtendsCarry(s, s', Reliable, s.reliable.pending);
    ExtendsCarry(s, s', ReliableOrdered, s.ordered.pending);
    forall key | key in s'.issued ensures IssueOk(s', key.0, key.1) {
      assert key == (key.0, key.1);
      ExtendsIssue(s, s', key.0, key.1);
    }
  }

  lemma QueueLinks(s: Sender, m: Message, tag: Tag, room: bool)
    requires LinksOk(s) && ParcelOk(s, Parcel(EncodeMessage(m), tag))
    requires tag.Free? ==> Unused(s, tag.unit)
    ensures var s' := QueueFrame(s, m, tag, room).0;
      && LinksOk(s') && Extends(s, s')
      && forall u | Unused(s, u) && tag != Free(u) :: Unused(s', u)
  {
    WiredLinks(s, QueueFrame(s, m, tag, room).0, Parcel(EncodeMessage(m), tag));
  }

  ghost function Issued(s: Sender, channel: Channel, id: nat, u: Unit): Sender {
    s.(issued := s.issued[(channel, id) := u])
  }

  ghost predicate Issuable(s: Sender, channel: Channel, id: nat, u: Unit) {
    && channel.IsReliable() && 0 < id < s.Session(channel).nextId && (channel, id) !in s.issued
    && UnitOk(s, u) && s.sends[u.send].channel == channel && Unused(s, u)
  }

  lemma AddIssueWire(s: Sender, channel: Channel, id: nat, u: Unit)
    requires WireOk(s) && Issuable(s, channel, id, u)
    ensures WireOk(Issued(s, channel, id, u))
  {
    var s' := Issued(s, channel, id, u);
    forall n | n in s'.wire ensures ParcelOk(s', s'.wire[n]) { ExtendsParcel(s, s', s.wire[n]); }
  }

  lemma AddIssueIds(s: Sender, channel: Channel, id: nat, u: Unit)
    requires IssuesOk(s) && Issuable(s, channel, id, u)
    ensures IssuesOk(Issued(s, channel, id, u))
  {
    var s' := Issued(s, channel, id, u);
    forall key | key in s'.issued ensures IssueOk(s', key.0, key.1) {
      assert key == (key.0, key.1);
      if key in s.issued { ExtendsIssue(s, s', key.0, key.1); }
    }
  }

  // A reliable id for a unit that had none.
  lemma AddIssue(s: Sender, channel: Channel, id: nat, u: Unit)
    requires LinksOk(s) && Issuable(s, channel, id, u)
    ensures LinksOk(Issued(s, channel, id, u)) && Extends(s, Issued(s, channel, id, u))
  {
    var s' := Issued(s, channel, id, u);
    AddIssueWire(s, channel, id, u);
    AddIssueIds(s, channel, id, u);
    ExtendsCarry(s, s', Reliable, s.reliable.pending);
    ExtendsCarry(s, s', ReliableOrdered, s.ordered.pending);
  }

  lemma NotIssuedYet(s: Sender, channel: Channel, id: nat)
    requires IssuesOk(s) && id >= s.Session(channel).nextId
    ensures (channel, id) !in s.issued
  {
  }

  // The session now holds nothing but what it held and p.
  ghost predicate AddsOnly(before: S.State, session: S.State, p: S.Pending) {
    forall k | 0 <= k < |session.pending| :: session.pending[k] == p || session.pending[k] in before.pending
  }

  // The message p carries unit u and was just enqueued in the channel's session.
  ghost predicate Offers(s: Sender, channel: Channel, session: S.State, p: S.Pending, u: Unit) {
    && channel.IsReliable() && UnitOk(s, u) && s.sends[u.send].channel == channel && Unused(s, u)
    && p.id == s.Session(channel).nextId > 0 && session.nextId == p.id + 1
    && Message(channel, p.kind, p.encoded) == s.sends[u.send].TrackedFrame(u.index, p.id)
    && AddsOnly(s.Session(channel), session, p)
  }

  lemma OfferCarries(s: Sender, s': Sender, channel: Channel, session: S.State, p: S.Pending, u: Unit)
    requires LinksOk(s) && Offers(s, channel, session, p, u) && Extends(s, s')
    requires (channel, p.id) in s'.issued && s'.issued[(channel, p.id)] == u && IssueOk(s', channel, p.id)
    ensures AllCarry(s', channel, session.pending) && Carries(s', channel, p.id, p.kind, p.encoded)
  {
    ExtendsCarry(s, s', channel, s.Session(channel).pending);
  }

  lemma IssueLinks(s: Sender, channel: Channel, session: S.State, p: S.Pending, u: Unit)
    requires LinksOk(s) && Offers(s, channel, session, p, u)
    ensures var s' := Issued(s.With(channel, session), channel, p.id, u);
      LinksOk(s') && Carries(s', channel, p.id, p.kind, p.encoded) && AllCarry(s', channel, session.pending)
  {
    var bumped := s.Session(channel).(nextId := p.id + 1);
    NotIssuedYet(s, channel, p.id);
    var s1 := s.With(channel, bumped);
    WithLinks(s, channel, bumped);
    var s2 := Issued(s1, channel, p.id, u);
    AddIssue(s1, channel, p.id, u);
    OfferCarries(s, s2, channel, session, p, u);
    WithLinks(s2, channel, session);
    ExtendsIssue(s2, s2.With(channel, session), channel, p.id);
    assert s2.With(channel, session) == Issued(s.With(channel, session), channel, p.id, u);
  }

  lemma IssueUnused(s: Sender, channel: Channel, session: S.State, id: nat, u: Unit)
    requires (channel, id) !in s.issued
    ensures forall v | Unused(s, v) && v != u :: Unused(Issued(s.With(channel, session), channel, id, u), v)
  {
  }

  lemma SettleCarries(s: Sender, channel: Channel, session: S.State, id: nat, later: nat, queued: bool)
    requires S.Valid(session) && AllCarry(s, channel, session.pending)
    ensures var session' := Settle(session, id, later, queued);
      session'.nextId == session.nextId && AllCarry(s, channel, session'.pending)
  {
    var good := Carrying(s, channel);
    S.AcknowledgeContents(session, id, later, good);
    S.NoteSentContents(session, id, later, good);
  }

  lemma PostLinks(s: Sender, channel: Channel, session: S.State, p: S.Pending, u: Unit, later: nat, room: bool)
    requires LinksOk(s) && S.Valid(session) && Offers(s, channel, session, p, u)
    ensures var s' := Post(s, channel, session, p, u, later, room).0;
      LinksOk(s') && forall v | Unused(s, v) && v != u :: Unused(s', v)
  {
    IssueLinks(s, channel, session, p, u);
    NotIssuedYet(s, channel, p.id);
    var s1 := Issued(s.With(channel, session), channel, p.id, u);
    IssueUnused(s, channel, session, p.id, u);
    var m := Message(channel, p.kind, p.encoded);
    var rc := QueueFrame(s1, m, Tracked(channel, p.id), room).1;
    SettleCarries(s1, channel, session, p.id, later, rc.Ok?);
    PostedLinks(s1, channel, Settle(session, p.id, later, rc.Ok?), p.id, m, room);
  }

  lemma PostedLinks(s: Sender, channel: Channel, session: S.State, id: nat, m: Message, room: bool)
    requires LinksOk(s) && channel.IsReliable() && session.nextId == s.Session(channel).nextId
    requires ParcelOk(s, Parcel(EncodeMessage(m), Tracked(channel, id))) && AllCarry(s, channel, session.pending)
    ensures var s' := QueueFrame(s, m, Tracked(channel, id), room).0.With(channel, session);
      LinksOk(s') && forall v | Unused(s, v) :: Unused(s', v)
  {
    QueueLinks(s, m, Tracked(channel, id), room);
    var s1 := QueueFrame(s, m, Tracked(channel, id), room).0;
    ExtendsCarry(s, s1, channel, session.pending);
    WithLinks(s1, channel, session);
  }

  ghost predicate Sending(s: Sender, rec: Record, i: nat) {
    && LinksOk(s) && SessionsValid(s) && s.sends != [] && rec == s.sends[|s.sends| - 1]
    && rec.WellFormed() && i <= rec.Units() && UnusedFrom(s, |s.sends| - 1, i)
  }

  lemma MakesOffer(s: Sender, rec: Record, i: nat, session: S.State, p: S.Pending)
    requires Sending(s, rec, i) && i < rec.Units() && rec.channel.IsReliable()
    requires p.id == s.Session(rec.channel).nextId && session.nextId == p.id + 1
    requires p.kind == rec.FrameKind() && p.encoded == EncodeNumbered(p.id, rec.Body(i))
    requires AddsOnly(s.Session(rec.channel), session, p)
    ensures Offers(s, rec.channel, session, p, Unit(|s.sends| - 1, i))
  {
    assert Unused(s, Unit(|s.sends| - 1, i));
  }

  // `s'` is `s` after unit u was sent.
  ghost predicate Sent(s: Sender, s': Sender, u: Unit) {
    LinksOk(s') && forall v | Unused(s, v) && v != u :: Unused(s', v)
  }

  lemma FailedLinks(s: Sender, channel: Channel, session: S.State, u: Unit, s': Sender)
    requires LinksOk(s) && channel.IsReliable() && s' == s.With(channel, session)
    requires session.pending == s.Session(channel).pending && session.nextId >= s.Session(channel).nextId
    ensures Sent(s, s', u)
  {
    WithLinks(s, channel, session);
  }

  lemma PostedUnit(s: Sender, rec: Record, i: nat, session: S.State, p: S.Pending, later: nat, room: bool, s': Sender)
    requires Sending(s, rec, i) && i < rec.Units() && rec.channel.IsReliable() && S.Valid(session)
    requires p.id == s.Session(rec.channel).nextId && session.nextId == p.id + 1
    requires p.kind == rec.FrameKind() && p.encoded == EncodeNumbered(p.id, rec.Body(i))
    requires AddsOnly(s.Session(rec.channel), session, p)
    requires s' == Post(s, rec.channel, session, p, Unit(|s.sends| - 1, i), later, room).0
    ensures Sent(s, s', Unit(|s.sends| - 1, i))
  {
    MakesOffer(s, rec, i, session, p);
    PostLinks(s, rec.channel, session, p, Unit(|s.sends| - 1, i), later, room);
  }

  lemma SendReliableLinks(s: Sender, rec: Record, i: nat, env: Env, s': Sender)
    requires Sending(s, rec, i) && i < rec.Units() && rec.channel.IsReliable()
    requires |rec.Body(i)| <= MAX_RELIABLE_MESSAGE_BYTES
    requires s' == SendReliable(s, rec.channel, rec.FrameKind(), rec.Body(i), Unit(|s.sends| - 1, i), env).0
    ensures Sent(s, s', Unit(|s.sends| - 1, i))
  {
    var kind, data, now := rec.FrameKind(), rec.Body(i), env.clock(2 * i);
    S.EnqueueContents(s.Session(rec.channel), kind, data, env.priority, env.lifetime, now);
    S.EnqueueKeepsValid(s.Session(rec.channel), kind, data, env.priority, env.lifetime, now);
    var (session, r) := S.EnqueueMessage(s.Session(rec.channel), kind, data, env.priority, env.lifetime, now);
    if r.Failure? {
      FailedLinks(s, rec.channel, session, Unit(|s.sends| - 1, i), s');
    } else {
      PostedUnit(s, rec, i, session, r.value, env.clock(2 * i + 1), env.room(i), s');
    }
  }

  lemma SendUnitLinks(s: Sender, rec: Record, i: nat, env: Env)
    requires Sending(s, rec, i) && i < rec.Units()
    ensures Sending(SendUnit(s, rec, i, env).0, rec, i + 1)
  {
    var u := Unit(|s.sends| - 1, i);
    UnitFits(rec, i, 0);
    SendUnitKeeps(s, rec, i, env);
    assert Unused(s, u);
    if rec.channel.IsReliable() {
      SendReliableLinks(s, rec, i, env, SendUnit(s, rec, i, env).0);
    } else {
      QueueLinks(s, rec.FreeFrame(i), Free(u), env.room(i));
    }
  }

  lemma {:induction false} SendUnitsLinks(s: Sender, rec: Record, i: nat, env: Env, s': Sender)
    requires Sending(s, rec, i) && s' == SendUnits(s, rec, i, env).0
    ensures LinksOk(s') && SessionsValid(s') && SameBook(s, s')
    decreases rec.Units() - i
  {
    if i < rec.Units() {
      SendUnitLinks(s, rec, i, env);
      SendUnitKeeps(s, rec, i, env);
      var (s1, rc) := SendUnit(s, rec, i, env);
      if rc.Ok? { SendUnitsLinks(s1, rec, i + 1, env, s'); }
    }
  }

  lemma {:induction false} RepostLinks(s: Sender, channel: Channel, sent: seq<S.Pending>)
    requires LinksOk(s) && SessionsValid(s) && AllCarry(s, channel, sent)
    ensures var s' := Repost(s, channel, sent); LinksOk(s') && SessionsValid(s') && SameBook(s, s')
    decreases |sent|
  {
    if sent != [] {
      var p := sent[0];
      var m := Message(channel, p.kind, p.encoded);
      assert Carries(s, channel, p.id, p.kind, p.encoded);
      QueueLinks(s, m, Tracked(channel, p.id), true);
      var s1 := QueueFrame(s, m, Tracked(channel, p.id), true).0;
      ExtendsCarry(s, s1, channel, sent[1..]);
      RepostLinks(s1, channel, sent[1..]);
    }
  }

  lemma PumpLinks(s: Sender, channel: Channel, now: nat, queued: nat -> bool)
    requires LinksOk(s) && SessionsValid(s) && channel.IsReliable()
    ensures var s' := Pump(s, channel, now, queued); LinksOk(s') && SessionsValid(s') && SameBook(s, s')
  {
    var good := Carrying(s, channel);
    var session := S.ExpireOldMessages(s.Session(channel), now);
    S.AliveContents(s.Session(channel).pending, now, good);
    S.ExpireKeepsValid(s.Session(channel), now);
    S.ResendContents(session, 0, now, queued, [], good);
    S.ResendKeepsValid(session, 0, now, queued, []);
    var (session', sent, _) := S.ResendDueMessages(session, now, queued);
    PumpedLinks(s, channel, session', sent);
    SkipLinks(Repost(s.With(channel, session'), channel, sent));
  }

  lemma SkipLinks(s: Sender)
    requires LinksOk(s)
    ensures LinksOk(Skip(s))
  {
    ExtendsCarry(s, Skip(s), Reliable, s.reliable.pending);
    ExtendsCarry(s, Skip(s), ReliableOrdered, s.ordered.pending);
    ExtendsLinks(s, Skip(s));
  }

  lemma PumpedLinks(s: Sender, channel: Channel, session: S.State, sent: seq<S.Pending>)
    requires LinksOk(s) && SessionsValid(s) && channel.IsReliable() && S.Valid(session)
    requires session.nextId == s.Session(channel).nextId
    requires AllCarry(s, channel, session.pending) && AllCarry(s, channel, sent)
    ensures var s' := Repost(s.With(channel, session), channel, sent);
      LinksOk(s') && SessionsValid(s') && SameBook(s, s')
  {
    WithLinks(s, channel, session);
    WithValid(s, channel, session);
    ExtendsCarry(s, s.With(channel, session), channel, sent);
    RepostLinks(s.With(channel, session), channel, sent);
  }

  // An acknowledgement, whenever it comes.
  lemma AckLinks(s: Sender, channel: Channel, id: nat, now: nat)
    requires LinksOk(s) && SessionsValid(s) && channel.IsReliable()
    ensures var s' := s.With(channel, S.AcknowledgeMessage(s.Session(channel), id, now).0);
      LinksOk(s') && SessionsValid(s') && SameBook(s, s')
  {
    S.AcknowledgeContents(s.Session(channel), id, now, Carrying(s, channel));
    S.AcknowledgeKeepsValid(s.Session(channel), id, now);
    PumpedLinks(s, channel, S.AcknowledgeMessage(s.Session(channel), id, now).0, []);
  }

  // ---------------------------------------------------------------- the numbering

  // The messages of the ordered channel, in the order they were numbered.
  ghost function OrderedOf(sends: seq<Record>): seq<O.App> {
    if sends == [] then []
    else
      var last := sends[|sends| - 1];
      OrderedOf(sends[..|sends| - 1]) + if last.channel.ReliableOrdered? then [O.App(last.kind, last.payload)] else []
  }

  ghost function SequencedCount(sends: seq<Record>): nat {
    if sends == [] then 0
    else SequencedCount(sends[..|sends| - 1]) + if sends[|sends| - 1].channel.SequencedUnreliable? then 1 else 0
  }

  // The fragmented messages by fragment id.
  ghost function Originals(sends: seq<Record>): map<nat, R.Whole> {
    if sends == [] then map[]
    else
      var last := sends[|sends| - 1];
      var before := Originals(sends[..|sends| - 1]);
      if last.Fragmented() then before[last.fragmentId := last.AsWhole()] else before
  }

  ghost function FragmentedCount(sends: seq<Record>): nat {
    if sends == [] then 0
    else FragmentedCount(sends[..|sends| - 1]) + if sends[|sends| - 1].Fragmented() then 1 else 0
  }

  ghost predicate Numbered(sends: seq<Record>, j: nat)
    requires j < |sends|
  {
    var rec := sends[j];
    && rec.WellFormed()
    && (rec.channel.ReliableOrdered? ==> rec.number == 1 + |OrderedOf(sends[..j])|)
    && (rec.channel.SequencedUnreliable? ==> rec.number == 1 + SequencedCount(sends[..j]))
    && (rec.Fragmented() ==> rec.fragmentId == 1 + FragmentedCount(sends[..j]))
  }

  ghost predicate BookOk(s: Sender) {
    && s.nextOrdered == 1 + |OrderedOf(s.sends)|
    && s.nextSequenced == 1 + SequencedCount(s.sends)
    && s.nextFragment == 1 + FragmentedCount(s.sends)
    && forall j | 0 <= j < |s.sends| :: Numbered(s.sends, j)
  }

  lemma BeginBook(s: Sender, channel: Channel, kind: byte, payload: seq<byte>)
    requires BookOk(s) && channel.IsApplication() && |payload| < U16_LIMIT
    ensures var rec := RecordFor(s, channel, kind, payload); rec.WellFormed() && BookOk(Begin(s, rec))
  {
    var rec := RecordFor(s, channel, kind, payload);
    var s' := Begin(s, rec);
    assert s'.sends[..|s.sends|] == s.sends;
    forall j | 0 <= j < |s'.sends| ensures Numbered(s'.sends, j) {
      if j < |s.sends| {
        assert Numbered(s.sends, j);
        assert s'.sends[..j] == s.sends[..j];
      }
    }
  }

  // The message numbered n on the ordered channel is the n-th of them.
  lemma {:induction false} OrderedAt(sends: seq<Record>, j: nat)
    requires j < |sends| && Numbered(sends, j) && sends[j].channel.ReliableOrdered?
    ensures 1 <= sends[j].number <= |OrderedOf(sends)|
    ensures OrderedOf(sends)[sends[j].number - 1] == O.App(sends[j].kind, sends[j].payload)
  {
    var n := |sends| - 1;
    if j < n {
      assert sends[..n][..j] == sends[..j];
      OrderedAt(sends[..n], j);
    }
  }

  lemma {:induction false} OriginalAt(sends: seq<Record>, j: nat)
    requires j < |sends| && sends[j].Fragmented() && forall i | 0 <= i < |sends| :: Numbered(sends, i)
    ensures sends[j].fragmentId <= FragmentedCount(sends)
    ensures sends[j].fragmentId in Originals(sends) && Originals(sends)[sends[j].fragmentId] == sends[j].AsWhole()
  {
    var n := |sends| - 1;
    if j < n {
      forall i | 0 <= i < n ensures Numbered(sends[..n], i) {
        assert Numbered(sends, i) && sends[..n][..i] == sends[..i];
      }
      OriginalAt(sends[..n], j);
      assert Numbered(sends, n);
    } else {
      assert Numbered(sends, n);
    }
  }

  lemma {:induction false} OriginalsKnown(sends: seq<Record>)
    requires forall i | 0 <= i < |sends| :: Numbered(sends, i)
    ensures R.KnownMessages(Originals(sends))
    ensures forall id | id in Originals(sends) :: id <= FragmentedCount(sends)
  {
    if sends != [] {
      var n := |sends| - 1;
      forall i | 0 <= i < n ensures Numbered(sends[..n], i) {
        assert Numbered(sends, i) && sends[..n][..i] == sends[..i];
      }
      OriginalsKnown(sends[..n]);
      assert Numbered(sends, n);
    }
  }

  // Two fragmented messages never share a fragment id.
  lemma FragmentIdsDiffer(sends: seq<Record>, i: nat, j: nat)
    requires i < j < |sends| && sends[i].Fragmented() && sends[j].Fragmented()
    requires forall k | 0 <= k < |sends| :: Numbered(sends, k)
    ensures sends[i].fragmentId < sends[j].fragmentId
  {
    var before := sends[..j];
    forall k | 0 <= k < j ensures Numbered(before, k) { assert Numbered(sends, k) && before[..k] == sends[..k]; }
    OriginalAt(before, i);
    assert Numbered(sends, j);
  }

  // send() keeps the whole book and every link.
  lemma SendKeepsAll(s: Sender, channel: Channel, kind: byte, payload: seq<byte>, env: Env)
    requires LinksOk(s) && SessionsValid(s) && BookOk(s)
    ensures var s' := Send(s, channel, kind, payload, env).0; LinksOk(s') && SessionsValid(s') && BookOk(s')
    ensures var s' := Send(s, channel, kind, payload, env).0;
      s'.sends == s.sends || s'.sends == s.sends + [RecordFor(s, channel, kind, payload)]
  {
    if channel.IsApplication() && |payload| < U16_LIMIT {
      var rec := RecordFor(s, channel, kind, payload);
      BeginBook(s, channel, kind, payload);
      BeginLinks(s, rec);
      assert Sending(Begin(s, rec), rec, 0);
      SendUnitsLinks(Begin(s, rec), rec, 0, env, SendUnits(Begin(s, rec), rec, 0, env).0);
    }
  }

  // ------------------------------------------------------- packet numbers are never reused

  // Packets and reliable ids of the past stay what they were.
  ghost predicate Grows(s: Sender, s': Sender) {
    && (forall n | n in s.wire :: n in s'.wire && s'.wire[n] == s.wire[n])
    && (forall key | key in s.issued :: key in s'.issued && s'.issued[key] == s.issued[key])
  }

  ghost predicate Below(s: Sender) { forall n | n in s.wire :: n < s.seqNo }

  lemma QueueGrows(s: Sender, m: Message, tag: Tag, room: bool)
    requires Below(s)
    ensures var s' := QueueFrame(s, m, tag, room).0; Grows(s, s') && Below(s')
  {
  }

  lemma PostGrows(s: Sender, channel: Channel, session: S.State, p: S.Pending, u: Unit, later: nat, room: bool)
    requires Below(s) && (channel, p.id) !in s.issued && S.Valid(session)
    ensures Grows(s, Post(s, channel, session, p, u, later, room).0)
  {
    var s1 := s.With(channel, session).(issued := s.issued[(channel, p.id) := u]);
    QueueGrows(s1, Message(channel, p.kind, p.encoded), Tracked(channel, p.id), room);
  }

  lemma SendReliableGrows(s: Sender, channel: Channel, kind: byte, data: seq<byte>, u: Unit, env: Env)
    requires Below(s) && IssuesOk(s) && S.Valid(s.Session(channel)) && |data| < U16_LIMIT
    ensures Grows(s, SendReliable(s, channel, kind, data, u, env).0)
  {
    if |data| <= MAX_RELIABLE_MESSAGE_BYTES {
      var now := env.clock(2 * u.index);
      S.EnqueueContents(s.Session(channel), kind, data, env.priority, env.lifetime, now);
      S.EnqueueKeepsValid(s.Session(channel), kind, data, env.priority, env.lifetime, now);
      var (session, r) := S.EnqueueMessage(s.Session(channel), kind, data, env.priority, env.lifetime, now);
      if r.Success? {
        NotIssuedYet(s, channel, r.value.id);
        PostGrows(s, channel, session, r.value, u, env.clock(2 * u.index + 1), env.room(u.index));
      }
    }
  }

  lemma SendUnitGrows(s: Sender, rec: Record, i: nat, env: Env)
    requires Sending(s, rec, i) && i < rec.Units()
    ensures Grows(s, SendUnit(s, rec, i, env).0)
  {
    UnitFits(rec, i, 0);
    if rec.channel.IsReliable() {
      SendReliableGrows(s, rec.channel, rec.FrameKind(), rec.Body(i), Unit(|s.sends| - 1, i), env);
    } else {
      QueueGrows(s, rec.FreeFrame(i), Free(Unit(|s.sends| - 1, i)), env.room(i));
    }
  }

  lemma GrowsOn(s: Sender, s1: Sender, s2: Sender)
    requires Grows(s, s1) && Grows(s1, s2)
    ensures Grows(s, s2)
  {
  }

  lemma {:induction false} SendUnitsGrows(s: Sender, rec: Record, i: nat, env: Env, s': Sender)
    requires Sending(s, rec, i) && s' == SendUnits(s, rec, i, env).0
    ensures Grows(s, s')
    decreases rec.Units() - i
  {
    if i < rec.Units() {
      SendUnitGrows(s, rec, i, env);
      SendUnitLinks(s, rec, i, env);
      SendUnitKeeps(s, rec, i, env);
      var (s1, rc) := SendUnit(s, rec, i, env);
      if rc.Ok? {
        SendUnitsGrows(s1, rec, i + 1, env, s');
        GrowsOn(s, s1, s');
      }
    }
  }

  lemma BegunSends(s: Sender, channel: Channel, kind: byte, payload: seq<byte>, rec: Record)
    requires LinksOk(s) && SessionsValid(s) && BookOk(s) && channel.IsApplication() && |payload| < U16_LIMIT
    requires rec == RecordFor(s, channel, kind, payload)
    ensures Sending(Begin(s, rec), rec, 0) && Grows(s, Begin(s, rec))
  {
    BeginBook(s, channel, kind, payload);
    BeginLinks(s, rec);
  }

  lemma SendGrows(s: Sender, channel: Channel, kind: byte, payload: seq<byte>, env: Env)
    requires LinksOk(s) && SessionsValid(s) && BookOk(s)
    ensures Grows(s, Send(s, channel, kind, payload, env).0)
  {
    if channel.IsApplication() && |payload| < U16_LIMIT {
      var rec := RecordFor(s, channel, kind, payload);
      BegunSends(s, channel, kind, payload, rec);
      var s' := SendUnits(Begin(s, rec), rec, 0, env).0;
      SendUnitsGrows(Begin(s, rec), rec, 0, env, s');
      GrowsOn(s, Begin(s, rec), s');
    }
  }

  lemma {:induction false} RepostGrows(s: Sender, channel: Channel, sent: seq<S.Pending>)
    requires Below(s)
    ensures Grows(s, Repost(s, channel, sent))
    decreases |sent|
  {
    if sent != [] {
      var m := Message(channel, sent[0].kind, sent[0].encoded);
      QueueGrows(s, m, Tracked(channel, sent[0].id), true);
      RepostGrows(QueueFrame(s, m, Tracked(channel, sent[0].id), true).0, channel, sent[1..]);
    }
  }

  // ----------------------------------------------------------------------------- class

  class OutboundConnection {
    const cfg: FragmentationConfig
    var sequence: nat
    var nextFragmentId: nat
    var nextOrdered: nat
    var nextSequenced: nat
    const reliable: S.ReliableSession
    const ordered: S.ReliableSession
    ghost var sends: seq<Record>
    ghost var wire: map<nat, Parcel>
    ghost var issued: map<(Channel, nat), Unit>

    ghost function Value(): Sender
      reads this, reliable, ordered
    {
      Sender(cfg, sequence, nextFragmentId, nextOrdered, nextSequenced, reliable.Value(), ordered.Value(),
             sends, wire, issued)
    }

    ghost predicate Valid()
      reads this, reliable, ordered
    {
      && reliable != ordered && SessionsValid(Value())
      && nextOrdered > 0 && nextSequenced > 0 && nextFragmentId > 0
    }

    constructor (cfg: FragmentationConfig, reliability: ReliabilityConfig)
      requires S.Valid(S.Initial(reliability))
      ensures Valid() && fresh(reliable) && fresh(ordered)
      ensures Value() == Sender(cfg, 1, 1, 1, 1, S.Initial(reliability), S.Initial(reliability), [], map[], map[])
    {
      this.cfg := cfg;
      sequence, nextFragmentId, nextOrdered, nextSequenced := 1, 1, 1, 1;
      reliable := new S.ReliableSession(reliability);
      ordered := new S.ReliableSession(reliability);
      sends, wire, issued := [], map[], map[];
    }

    // The packet itself goes to the packet queue, which has room or not.
    method Queue(m: Message, ghost tag: Tag, room: bool) returns (rc: Status)
      modifies `sequence, `wire
      ensures (Value(), rc) == QueueFrame(old(Value()), m, tag, room)
    {
      if |m.data| > MAX_MESSAGE_BYTES { return Err(InvalidArg); }
      if |EncodeMessage(m)| > MAX_ENCRYPTED_PLAINTEXT_BYTES { return Err(InvalidArg); }
      var number := sequence;
      sequence := sequence + 1;
      if !room { return Err(QueueFull); }
      wire := wire[number := Parcel(EncodeMessage(m), tag)];
      return Ok;
    }

    // The second half of send_reliable_message: the message was just enqueued in its session.
    method PostMessage(channel: Channel, p: S.Pending, ghost u: Unit, later: nat, room: bool) returns (rc: Status)
      requires Valid()
      modifies this, reliable, ordered
      ensures (Value(), rc) == Post(old(Value()), channel, old(Value()).Session(channel), p, u, later, room)
    {
      var session := if channel == ReliableOrdered then ordered else reliable;
      issued := issued[(channel, p.id) := u];
      rc := Queue(Message(channel, p.kind, p.encoded), Tracked(channel, p.id), room);
      if rc.Err? {
        var event := session.Acknowledge(p.id, later);
        return;
      }
      var noted := session.NoteSent(p.id, later);
    }

    method EnqueueIn(channel: Channel, kind: byte, data: seq<byte>, priority: Priority, lifetime: nat, now: nat)
      returns (r: Result<S.Pending>)
      requires Valid() && |data| < U16_LIMIT
      modifies reliable, ordered
      ensures Valid() && (Value(), r) ==
        var (session, res) := S.EnqueueMessage(old(Value()).Session(channel), kind, data, priority, lifetime, now);
        (old(Value()).With(channel, session), res)
    {
      var session := if channel == ReliableOrdered then ordered else reliable;
      S.EnqueueKeepsValid(session.Value(), kind, data, priority, lifetime, now);
      r := session.Enqueue(kind, data, priority, lifetime, now);
    }

    method SendReliableMessage(channel: Channel, kind: byte, data: seq<byte>, ghost u: Unit, env: Env, index: nat)
      returns (rc: Status)
      requires Valid() && |data| < U16_LIMIT && u.index == index
      modifies this, reliable, ordered
      ensures (Value(), rc) == SendReliable(old(Value()), channel, kind, data, u, env)
    {
      if |data| > MAX_RELIABLE_MESSAGE_BYTES { return Err(TooLarge); }
      ghost var before := Value();
      var r := EnqueueIn(channel, kind, data, env.priority, env.lifetime, env.clock(2 * index));
      ghost var session := Value().Session(channel);
      SendReliableParts(before, channel, kind, data, u, env, session, r);
      if r.Failure? { return Err(r.error); }
      PostAgain(before, channel, session, r.value, u, env.clock(2 * index + 1), env.room(index));
      rc := PostMessage(channel, r.value, u, env.clock(2 * index + 1), env.room(index));
    }

    // One round of the loop over the fragments; `goal` is what the whole loop comes to.
    method SendNext(rec: Record, i: nat, env: Env, ghost goal: (Sender, Status)) returns (rc: Status)
      requires Valid() && sends != [] && rec.WellFormed() && i < rec.Units() && goal == SendUnits(Value(), rec, i, env)
      modifies this, reliable, ordered
      ensures rc.Ok? ==> Valid() && sends != [] && goal == SendUnits(Value(), rec, i + 1, env)
      ensures rc.Err? ==> goal == (Value(), rc)
    {
      ghost var before, u := Value(), Unit(|sends| - 1, i);
      UnitFits(rec, i, 0);
      if rec.channel == Reliable || rec.channel == ReliableOrdered {
        var kind, body := rec.FrameKind(), rec.Body(i);
        rc := SendReliableMessage(rec.channel, kind, body, u, env, i);
        TrackedStep(before, rec, i, env, kind, body, u, Value(), rc);
      } else {
        rc := Queue(rec.FreeFrame(i), Free(u), env.room(i));
        FreeStep(before, rec, i, env, Value(), rc);
      }
    }

    // The loop over the fragments; an inline message takes one round.
    method SendAll(rec: Record, env: Env) returns (rc: Status)
      requires Valid() && sends != [] && rec.WellFormed()
      modifies this, reliable, ordered
      ensures (Value(), rc) == SendUnits(old(Value()), rec, 0, env)
    {
      ghost var goal := SendUnits(Value(), rec, 0, env);
      rc := Ok;
      var i := 0;
      while i < rec.Units()
        invariant i <= rec.Units() && Valid() && sends != [] && rc == Ok
        invariant goal == SendUnits(Value(), rec, i, env)
      {
        rc := SendNext(rec, i, env, goal);
        if rc.Err? { return; }
        i := i + 1;
      }
    }

    // Takes the numbers a message needs.
    method Number(channel: Channel, kind: byte, payload: seq<byte>) returns (rec: Record)
      modifies `sends, `nextOrdered, `nextSequenced, `nextFragmentId
      ensures rec == RecordFor(old(Value()), channel, kind, payload) && Value() == Begin(old(Value()), rec)
    {
      var number, fragment := 0, 0;
      if channel == ReliableOrdered {
        number, nextOrdered := nextOrdered, nextOrdered + 1;
      } else if channel == SequencedUnreliable {
        number, nextSequenced := nextSequenced, nextSequenced + 1;
      }
      if |payload| > channel.MaxInline() { fragment, nextFragmentId := nextFragmentId, nextFragmentId + 1; }
      rec := Record(channel, kind, payload, number, fragment);
      sends := sends + [rec];
    }

    method SendMessage(channel: Channel, kind: byte, payload: seq<byte>, env: Env) returns (rc: Status)
      requires Valid()
      modifies this, reliable, ordered
      ensures (Value(), rc) == Send(old(Value()), channel, kind, payload, env)
    {
      if channel == Control { return Err(InvalidArg); }
      if |payload| >= U16_LIMIT { return Err(TooLarge); }
      if |payload| > channel.MaxInline() {
        if !cfg.enabled { return Err(TooLarge); }
        if |payload| > cfg.maxReassembledMessageBytes { return Err(TooLarge); }
        var count := Count(|payload|);
        if count == 0 || count > cfg.maxFragmentsPerMessage { return Err(TooLarge); }
      }
      RecordWellFormed(Value(), channel, kind, payload);
      var rec := Number(channel, kind, payload);
      rc := SendAll(rec, env);
    }

    // pump_reliable for one channel; `queued` says which messages found room in the packet queue.
    method PumpReliable(channel: Channel, now: nat, queued: nat -> bool)
      requires Valid()
      modifies this, reliable, ordered
      ensures Value() == Pump(old(Value()), channel, now, queued)
    {
      var session := if channel == ReliableOrdered then ordered else reliable;
      var removed := session.ExpireOld(now);
      var sent, ok := session.ResendDue(now, queued);
      ghost var goal := Repost(Value(), channel, sent);
      assert sent[0..] == sent;
      for i := 0 to |sent|
        invariant goal == Repost(Value(), channel, sent[i..])
      {
        var rc := Queue(Message(channel, sent[i].kind, sent[i].encoded), Tracked(channel, sent[i].id), true);
        assert sent[i..][1..] == sent[i + 1..];
      }
      if !ok { sequence := sequence + 1; }
    }
  }

  lemma RecordWellFormed(s: Sender, channel: Channel, kind: byte, payload: seq<byte>)
    requires s.nextOrdered > 0 && s.nextSequenced > 0 && s.nextFragment > 0
    requires channel.IsApplication() && |payload| < U16_LIMIT
    ensures RecordFor(s, channel, kind, payload).WellFormed()
  {
  }

  lemma SendUnitsStep(s: Sender, rec: Record, i: nat, env: Env, s1: Sender, rc: Status)
    requires SessionsValid(s) && s.sends != [] && rec.WellFormed()
    requires i < rec.Units() && (s1, rc) == SendUnit(s, rec, i, env)
    ensures SessionsValid(s1) && SameBook(s, s1)
    ensures SendUnits(s, rec, i, env) == if rc.Err? then (s1, rc) else SendUnits(s1, rec, i + 1, env)
  {
    SendUnitKeeps(s, rec, i, env);
  }

  lemma TrackedUnit(s: Sender, rec: Record, i: nat, env: Env, kind: byte, body: seq<byte>, u: Unit)
    requires SessionsValid(s) && s.sends != [] && rec.WellFormed() && i < rec.Units() && rec.channel.IsReliable()
    requires kind == rec.FrameKind() && body == rec.Body(i) && u == Unit(|s.sends| - 1, i) && |body| < U16_LIMIT
    ensures SendUnit(s, rec, i, env) == SendReliable(s, rec.channel, kind, body, u, env)
  {
  }

  lemma TrackedStep(s: Sender, rec: Record, i: nat, env: Env, kind: byte, body: seq<byte>, u: Unit, s1: Sender,
                    rc: Status)
    requires SessionsValid(s) && s.sends != [] && rec.WellFormed() && i < rec.Units() && rec.channel.IsReliable()
    requires kind == rec.FrameKind() && body == rec.Body(i) && u == Unit(|s.sends| - 1, i) && |body| < U16_LIMIT
    requires (s1, rc) == SendReliable(s, rec.channel, kind, body, u, env)
    ensures SessionsValid(s1) && SameBook(s, s1)
    ensures SendUnits(s, rec, i, env) == if rc.Err? then (s1, rc) else SendUnits(s1, rec, i + 1, env)
  {
    TrackedUnit(s, rec, i, env, kind, body, u);
    SendUnitsStep(s, rec, i, env, s1, rc);
  }

  lemma FreeStep(s: Sender, rec: Record, i: nat, env: Env, s1: Sender, rc: Status)
    requires SessionsValid(s) && s.sends != [] && rec.WellFormed() && i < rec.Units() && !rec.channel.IsReliable()
    requires (s1, rc) == QueueFrame(s, rec.FreeFrame(i), Free(Unit(|s.sends| - 1, i)), env.room(i))
    ensures SessionsValid(s1) && SameBook(s, s1)
    ensures SendUnits(s, rec, i, env) == if rc.Err? then (s1, rc) else SendUnits(s1, rec, i + 1, env)
  {
    SendUnitKeeps(s, rec, i, env);
  }

  // send_reliable_message as enqueue, then post.
  lemma SendReliableParts(s: Sender, channel: Channel, kind: byte, data: seq<byte>, u: Unit, env: Env, session: S.State,
                          r: Result<S.Pending>)
    requires S.Valid(s.Session(channel)) && |data| <= MAX_RELIABLE_MESSAGE_BYTES && S.Valid(session)
    requires (session, r)
         == S.EnqueueMessage(s.Session(channel), kind, data, env.priority, env.lifetime, env.clock(2 * u.index))
    ensures SendReliable(s, channel, kind, data, u, env) ==
      if r.Failure? then (s.With(channel, session), Err(r.error))
      else Post(s, channel, session, r.value, u, env.clock(2 * u.index + 1), env.room(u.index))
  {
  }

  lemma PostAgain(s: Sender, channel: Channel, session: S.State, p: S.Pending, u: Unit, later: nat, room: bool)
    requires S.Valid(session)
    ensures Post(s.With(channel, session), channel, session, p, u, later, room)
         == Post(s, channel, session, p, u, later, room)
  {
  }
}
