// One direction of an established connection end to end: a sender, a network that may lose,
// duplicate, delay and reorder packets, and a receiver.
module Transport {
  import opened Config
  import opened Codec
  import opened Windows
  import opened Outbound
  import opened Inbound
  import opened Landing
  import opened Losses
  import R = Reassembly
  import S = Session

  // `log` is everything handed to the application so far; `failed` says that a packet failed the connection.
  // Later packets are dispatched all the same, as the server does for a session that is closing.
  datatype Link = Link(sender: Sender, receiver: Receiver, log: seq<Delivery>, failed: bool)

  datatype Step =
    | SendMessage(channel: Channel, kind: byte, payload: seq<byte>, env: Env)
    | Resend(channel: Channel, now: nat, queued: nat -> bool)
    | Acked(channel: Channel, id: nat, now: nat)          // an acknowledgement reaches the sender
    | SendAck(channel: Channel, id: nat, room: bool)      // the sender acknowledges the other direction
    | SendBare(room: bool)                                // keepalive or raw packet
    | Arrive(sequence: nat, now: nat, roomy: bool)        // any packet ever built, any number of times
    | Expire(now: nat)

  // What the functions below need; Ready holds in every reachable state (InvariantHolds).
  ghost predicate SenderReady(s: Sender) {
    SessionsValid(s) && s.nextOrdered > 0 && s.nextSequenced > 0 && s.nextFragment > 0
  }

  ghost predicate Ready(k: Link) { SenderReady(k.sender) && R.Consistent(k.receiver.reassembly) }

  // A user message whose bytes the receiver cannot take for a fragment (Inbound.InlineArrivesIffUnambiguous).
  ghost predicate Clear(s: Sender, channel: Channel, kind: byte, payload: seq<byte>) {
    var rec := RecordFor(s, channel, kind, payload); rec.WellFormed() ==> Unambiguous(rec)
  }

  ghost predicate Legal(s: Sender, step: Step) {
    match step
    case SendMessage(channel, kind, payload, _) => Clear(s, channel, kind, payload)
    case Resend(channel, _, _) => channel.IsReliable()
    case Acked(channel, _, _) => channel.IsReliable()
    case SendAck(channel, id, _) => channel.IsReliable() && 0 < id < U64_LIMIT
    case SendBare(_) => true
    case Arrive(sequence, _, _) => sequence in s.wire
    case Expire(_) => true
  }

  // A packet without frames takes a number too.
  function QueueBare(s: Sender, room: bool): Sender {
    var s1 := s.(seqNo := s.seqNo + 1);
    if room then s1.(wire := s.wire[s.seqNo := Parcel([], Bare)]) else s1
  }

  // What a step does to the sender; arrivals and expiry are the receiver's.
  ghost function Moved(s: Sender, step: Step): Sender
    requires SenderReady(s) && Legal(s, step)
  {
    match step
    case SendMessage(channel, kind, payload, env) => Send(s, channel, kind, payload, env).0
    case Resend(channel, now, queued) => Pump(s, channel, now, queued)
    case Acked(channel, id, now) => s.With(channel, S.AcknowledgeMessage(s.Session(channel), id, now).0)
    case SendAck(channel, id, room) =>
      QueueFrame(s, Message(Control, CONTROL_ACK, EncodeAck(channel, id)), Receipt(channel, id), room).0
    case SendBare(room) => QueueBare(s, room)
    case Arrive(_, _, _) => s
    case Expire(_) => s
  }

  ghost function Apply(limits: Limits, k: Link, step: Step): Link
    requires Ready(k) && Legal(k.sender, step)
  {
    match step
    case Arrive(sequence, now, roomy) =>
      var e := Receive(limits, k.receiver, now, sequence, k.sender.wire[sequence].bytes, roomy);
      k.(receiver := e.r, log := k.log + e.out, failed := k.failed || e.status.Err?)
    case Expire(now) => k.(receiver := ExpireReassembly(limits, k.receiver, now))
    case _ => k.(sender := Moved(k.sender, step))
  }

  // No 64-bit counter has wrapped.
  ghost predicate CountersFit(s: Sender) {
    && s.seqNo <= U64_LIMIT && s.nextOrdered <= U64_LIMIT && s.nextSequenced <= U64_LIMIT && s.nextFragment <= U64_LIMIT
    && s.reliable.nextId <= U64_LIMIT && s.ordered.nextId <= U64_LIMIT
  }

  ghost predicate Start(k: Link) {
    && SessionsValid(k.sender) && k.sender.reliable.pending == [] && k.sender.ordered.pending == []
    && k.sender.seqNo == k.sender.nextOrdered == k.sender.nextSequenced == k.sender.nextFragment == 1
    && k.sender.sends == [] && k.sender.wire == map[] && k.sender.issued == map[]
    && k.receiver == FRESH && k.log == [] && !k.failed
  }

  ghost predicate Next(limits: Limits, k: Link, step: Step, k': Link) {
    && CountersFit(k.sender) && Legal(k.sender, step)
    && (Ready(k) ==> k' == Apply(limits, k, step))
  }

  // The states of a run, from an established connection.
  ghost predicate IsRun(limits: Limits, states: seq<Link>, steps: seq<Step>) {
    && |states| == |steps| + 1 && Start(states[0])
    && forall i | 0 <= i < |steps| :: Next(limits, states[i], steps[i], states[i + 1])
  }

  // -------------------------------------------------------------------- the invariant

  datatype Book = Book(packets: set<nat>, reliableIds: set<nat>, orderedIds: set<nat>, tally: Tally)

  ghost function Ids(b: Book, channel: Channel): set<nat> {
    if channel.ReliableOrdered? then b.orderedIds else b.reliableIds
  }

  ghost predicate AllUnambiguous(sends: seq<Record>) {
    forall j | 0 <= j < |sends| :: sends[j].WellFormed() && Unambiguous(sends[j])
  }

  ghost predicate SenderOk(s: Sender) { LinksOk(s) && SessionsValid(s) && BookOk(s) && AllUnambiguous(s.sends) }

  ghost predicate WindowsOk(r: Receiver, b: Book) {
    && Represents(r.packets, b.packets)
    && Represents(r.reliableIds, b.reliableIds) && Represents(r.orderedIds, b.orderedIds)
  }

  // A window has accepted the packet or the id under which the unit came.
  ghost predicate Accepted(b: Book, n: nat, tag: Tag) {
    (tag.Free? && n in b.packets) || (tag.Tracked? && tag.id in Ids(b, tag.channel))
  }

  ghost predicate Came(s: Sender, b: Book, n: nat, u: Unit) {
    n in s.wire && Bears(s, s.wire[n].tag, u) && Accepted(b, n, s.wire[n].tag)
  }

  ghost predicate Seen(s: Sender, b: Book, u: Unit) { exists n :: Came(s, b, n, u) }

  ghost predicate AllSeen(s: Sender, b: Book) { forall u | u in b.tally.arrived :: Seen(s, b, u) }

  ghost predicate Inv(limits: Limits, k: Link, b: Book) {
    && SenderOk(k.sender) && WindowsOk(k.receiver, b) && AllSeen(k.sender, b)
    && LandOk(k.sender.sends, k.receiver, k.log, b.tally)
    && (k.failed ==> !limits.fragmentation.enabled)
  }

  // ------------------------------------------------------------ steps of the sender

  lemma SeenLater(s: Sender, s': Sender, b: Book)
    requires AllSeen(s, b) && Grows(s, s')
    ensures AllSeen(s', b)
  {
    forall u | u in b.tally.arrived ensures Seen(s', b, u) {
      assert Seen(s, b, u);
      var n :| Came(s, b, n, u);
      assert Came(s', b, n, u);
    }
  }

  ghost predicate SendsGrow(sends: seq<Record>, more: seq<Record>) {
    more == sends || exists rec :: more == sends + [rec]
  }

  lemma SenderMoves(limits: Limits, k: Link, b: Book, s': Sender)
    requires Inv(limits, k, b) && SenderOk(s') && Grows(k.sender, s')
    requires SendsGrow(k.sender.sends, s'.sends)
    ensures Inv(limits, k.(sender := s'), b)
  {
    SeenLater(k.sender, s', b);
    if s'.sends != k.sender.sends {
      var rec :| s'.sends == k.sender.sends + [rec];
      SendingLands(k.sender.sends, rec, k.receiver, k.log, b.tally);
    }
  }

  lemma SendOk(s: Sender, channel: Channel, kind: byte, payload: seq<byte>, env: Env)
    requires SenderOk(s) && Clear(s, channel, kind, payload)
    ensures SenderOk(Send(s, channel, kind, payload, env).0)
  {
    SendKeepsAll(s, channel, kind, payload, env);
    var s' := Send(s, channel, kind, payload, env).0;
    forall j | 0 <= j < |s'.sends| ensures s'.sends[j].WellFormed() && Unambiguous(s'.sends[j]) {
      assert Numbered(s'.sends, j);
    }
  }

  lemma SameBookOk(s: Sender, s': Sender)
    requires SenderOk(s) && LinksOk(s') && SessionsValid(s') && SameBook(s, s')
    ensures SenderOk(s')
  {
  }

  lemma PumpGrows(s: Sender, channel: Channel, now: nat, queued: nat -> bool)
    requires Below(s)
    ensures Grows(s, Pump(s, channel, now, queued))
  {
    var session := S.ExpireOldMessages(s.Session(channel), now);
    var (session', sent, _) := S.ResendDueMessages(session, now, queued);
    RepostGrows(s.With(channel, session'), channel, sent);
  }

  lemma BareLinks(s: Sender, room: bool)
    requires LinksOk(s)
    ensures LinksOk(QueueBare(s, room)) && Grows(s, QueueBare(s, room))
  {
    WiredLinks(s, QueueBare(s, room), Parcel([], Bare));
  }

  ghost predicate BySender(step: Step) { !step.Arrive? && !step.Expire? }

  lemma SendStepOk(s: Sender, channel: Channel, kind: byte, payload: seq<byte>, env: Env)
    requires SenderOk(s) && Clear(s, channel, kind, payload)
    ensures var s' := Send(s, channel, kind, payload, env).0;
      SenderOk(s') && Grows(s, s') && SendsGrow(s.sends, s'.sends)
  {
    SendOk(s, channel, kind, payload, env);
    SendKeepsAll(s, channel, kind, payload, env);
    SendGrows(s, channel, kind, payload, env);
  }

  lemma ResendStepOk(s: Sender, channel: Channel, now: nat, queued: nat -> bool)
    requires SenderOk(s) && channel.IsReliable()
    ensures var s' := Pump(s, channel, now, queued); SenderOk(s') && Grows(s, s') && s'.sends == s.sends
  {
    PumpLinks(s, channel, now, queued);
    PumpGrows(s, channel, now, queued);
    SameBookOk(s, Pump(s, channel, now, queued));
  }

  lemma AckedStepOk(s: Sender, channel: Channel, id: nat, now: nat, s': Sender)
    requires SenderOk(s) && channel.IsReliable()
    requires s' == s.With(channel, S.AcknowledgeMessage(s.Session(channel), id, now).0)
    ensures SenderOk(s') && Grows(s, s') && s'.sends == s.sends
  {
    AckLinks(s, channel, id, now);
    SameBookOk(s, s');
  }

  lemma ReceiptStepOk(s: Sender, channel: Channel, id: nat, room: bool, s': Sender)
    requires SenderOk(s) && channel.IsReliable() && 0 < id < U64_LIMIT
    requires s' == QueueFrame(s, Message(Control, CONTROL_ACK, EncodeAck(channel, id)), Receipt(channel, id), room).0
    ensures SenderOk(s') && Grows(s, s') && s'.sends == s.sends
  {
    var m := Message(Control, CONTROL_ACK, EncodeAck(channel, id));
    QueueLinks(s, m, Receipt(channel, id), room);
    QueueGrows(s, m, Receipt(channel, id), room);
    SameBookOk(s, s');
  }

  lemma BareStepOk(s: Sender, room: bool)
    requires SenderOk(s)
    ensures var s' := QueueBare(s, room); SenderOk(s') && Grows(s, s') && s'.sends == s.sends
  {
    BareLinks(s, room);
    SameBookOk(s, QueueBare(s, room));
  }

  lemma SenderStepOk(s: Sender, step: Step)
    requires SenderReady(s) && Legal(s, step) && SenderOk(s)
    ensures var s' := Moved(s, step); SenderOk(s') && Grows(s, s') && SendsGrow(s.sends, s'.sends)
  {
    match step
    case SendMessage(channel, kind, payload, env) => SendStepOk(s, channel, kind, payload, env);
    case Resend(channel, now, queued) => ResendStepOk(s, channel, now, queued);
    case Acked(channel, id, now) => AckedStepOk(s, channel, id, now, Moved(s, step));
    case SendAck(channel, id, room) => ReceiptStepOk(s, channel, id, room, Moved(s, step));
    case SendBare(room) => BareStepOk(s, room);
    case Arrive(_, _, _) =>
    case Expire(_) =>
  }

  // ---------------------------------------------------------------- steps of the receiver

  lemma SeenUnder(s: Sender, b: Book, b': Book, u: Unit)
    requires Seen(s, b, u)
    requires b.packets <= b'.packets && b.reliableIds <= b'.reliableIds && b.orderedIds <= b'.orderedIds
    ensures Seen(s, b', u)
  {
    var n :| Came(s, b, n, u);
    assert Came(s, b', n, u);
  }

  lemma SeenMore(s: Sender, b: Book, b': Book)
    requires AllSeen(s, b) && b'.tally.arrived == b.tally.arrived
    requires b.packets <= b'.packets && b.reliableIds <= b'.reliableIds && b.orderedIds <= b'.orderedIds
    ensures AllSeen(s, b')
  {
    forall u | u in b'.tally.arrived ensures Seen(s, b', u) { SeenUnder(s, b, b', u); }
  }

  // A free unit is on one packet, a tracked one under one id.
  lemma CameOnce(s: Sender, n: nat, m: nat, u: Unit)
    requires LinksOk(s) && n in s.wire && s.wire[n].tag == Free(u) && m in s.wire && Bears(s, s.wire[m].tag, u)
    ensures m == n
  {
    assert ParcelOk(s, s.wire[n]) && ParcelOk(s, s.wire[m]);
  }

  lemma CameUnder(s: Sender, channel: Channel, id: nat, m: nat, u: Unit)
    requires LinksOk(s) && IsFor(s, channel, id, u) && m in s.wire && Bears(s, s.wire[m].tag, u)
    ensures s.wire[m].tag == Tracked(channel, id)
  {
    assert ParcelOk(s, s.wire[m]) && IssueOk(s, channel, id);
    if s.wire[m].tag.Tracked? { assert (s.wire[m].tag.channel, s.wire[m].tag.id) in s.issued; }
  }

  // A free unit whose packet was never accepted has not landed.
  lemma FreshPacket(s: Sender, b: Book, n: nat, u: Unit)
    requires LinksOk(s) && AllSeen(s, b) && n in s.wire && s.wire[n].tag == Free(u) && n !in b.packets
    ensures u !in b.tally.arrived
  {
    assert ParcelOk(s, s.wire[n]);
    forall m ensures !Came(s, b, m, u) {
      if m in s.wire && Bears(s, s.wire[m].tag, u) { CameOnce(s, n, m, u); }
    }
    assert !Seen(s, b, u);
  }

  // A tracked unit whose reliable id was never accepted has not landed.
  lemma FreshId(s: Sender, b: Book, channel: Channel, id: nat)
    requires LinksOk(s) && AllSeen(s, b) && (channel, id) in s.issued && id !in Ids(b, channel)
    ensures s.issued[(channel, id)] !in b.tally.arrived
  {
    var u := s.issued[(channel, id)];
    assert IssueOk(s, channel, id);
    forall m ensures !Came(s, b, m, u) {
      if m in s.wire && Bears(s, s.wire[m].tag, u) { CameUnder(s, channel, id, m, u); }
    }
    assert !Seen(s, b, u);
  }

  ghost predicate ReceiverOk(s: Sender, r: Receiver, log: seq<Delivery>, b: Book) {
    WindowsOk(r, b) && AllSeen(s, b) && LandOk(s.sends, r, log, b.tally)
  }

  // What came and was not kept does not come back.
  ghost predicate MissesStay(s: Sender, r: Receiver, b: Book, r': Receiver, b': Book) {
    forall u | Missed(s.sends, r, b.tally.arrived, u) :: Missed(s.sends, r', b'.tally.arrived, u)
  }

  // The unit has not landed, and the window refuses the id it travels under.
  ghost predicate Barred(s: Sender, b: Book, channel: Channel, id: nat, u: Unit) {
    IsFor(s, channel, id, u) && u !in b.tally.arrived && !Admits(Ids(b, channel), id)
  }

  // What landed stays landed, and what is barred stays barred.
  ghost predicate BarsStay(s: Sender, b: Book, b': Book) {
    && b.tally.arrived <= b'.tally.arrived
    && forall channel, id, u | Barred(s, b, channel, id, u) :: Barred(s, b', channel, id, u)
  }

  ghost predicate IdsGrew(b: Book, b': Book) { b.reliableIds <= b'.reliableIds && b.orderedIds <= b'.orderedIds }

  lemma NobodyBars(s: Sender, b: Book, b': Book)
    requires IdsGrew(b, b') && b'.tally.arrived == b.tally.arrived
    ensures BarsStay(s, b, b')
  {
    forall channel, id, u | Barred(s, b, channel, id, u) ensures Barred(s, b', channel, id, u) {
      RefusedStays(Ids(b, channel), Ids(b', channel), id);
    }
  }

  // A unit that lands travelled on its own or under an id that was admitted, so no barred unit lands.
  lemma LandingBars(s: Sender, b: Book, b': Book, u: Unit)
    requires IdsGrew(b, b') && b'.tally.arrived == b.tally.arrived + {u}
    requires forall channel, id | IsFor(s, channel, id, u) :: Admits(Ids(b, channel), id)
    ensures BarsStay(s, b, b')
  {
    forall channel, id, v | Barred(s, b, channel, id, v) ensures Barred(s, b', channel, id, v) {
      RefusedStays(Ids(b, channel), Ids(b', channel), id);
    }
  }

  lemma OneId(s: Sender, channel: Channel, id: nat, channel': Channel, id': nat, u: Unit)
    requires LinksOk(s) && IsFor(s, channel, id, u) && IsFor(s, channel', id', u)
    ensures channel == channel' && id == id'
  {
    assert (channel, id) in s.issued && (channel', id') in s.issued;
  }

  lemma TrackedBars(s: Sender, b: Book, b': Book, channel: Channel, id: nat, u: Unit)
    requires LinksOk(s) && IsFor(s, channel, id, u) && Admits(Ids(b, channel), id)
    requires IdsGrew(b, b') && b'.tally.arrived == b.tally.arrived + {u}
    ensures BarsStay(s, b, b')
  {
    forall channel', id' | IsFor(s, channel', id', u) ensures Admits(Ids(b, channel'), id') {
      OneId(s, channel, id, channel', id', u);
    }
    LandingBars(s, b, b', u);
  }

  lemma FreeBars(s: Sender, b: Book, b': Book, u: Unit)
    requires LinksOk(s) && UnitOk(s, u) && !s.sends[u.send].channel.IsReliable()
    requires IdsGrew(b, b') && b'.tally.arrived == b.tally.arrived + {u}
    ensures BarsStay(s, b, b')
  {
    forall key | key in s.issued ensures s.issued[key] != u {
      assert IssueOk(s, key.0, key.1) && key == (key.0, key.1);
    }
    LandingBars(s, b, b', u);
  }

  lemma WindowsMove(s: Sender, r: Receiver, r': Receiver, log: seq<Delivery>, b: Book, b': Book)
    requires ReceiverOk(s, r, log, b) && WindowsOk(r', b') && b'.tally == b.tally
    requires r'.ordered == r.ordered && r'.latest == r.latest && r'.reassembly == r.reassembly
    requires b.packets <= b'.packets && b.reliableIds <= b'.reliableIds && b.orderedIds <= b'.orderedIds
    ensures ReceiverOk(s, r', log, b') && MissesStay(s, r, b, r', b')
  {
    SeenMore(s, b, b');
    assert DeliveryOk(s.sends, r', log, b.tally);
  }

  lemma UnitLands(limits: Limits, s: Sender, r: Receiver, log: seq<Delivery>, b: Book, now: nat, u: Unit, roomy: bool,
                  e: Effect)
    returns (b': Book)
    requires ReceiverOk(s, r, log, b) && UnitOk(s, u) && u !in b.tally.arrived && Seen(s, b, u)
    requires e == Land(limits, r, now, s.sends[u.send], u.index, roomy)
    ensures ReceiverOk(s, e.r, log + e.out, b') && MissesStay(s, r, b, e.r, b')
    ensures b' == b.(tally := b'.tally) && b'.tally.arrived == b.tally.arrived + {u}
    ensures e.status.Err? ==> !limits.fragmentation.enabled
  {
    var t' := LandKeeps(limits, s.sends, r, log, b.tally, now, u.send, u.index, roomy, e);
    LandSameWindows(limits, r, now, s.sends[u.send], u.index, roomy);
    b' := b.(tally := t');
    forall v | v in t'.arrived ensures Seen(s, b', v) { SeenUnder(s, b, b', v); }
    forall v | Missed(s.sends, r, b.tally.arrived, v) ensures Missed(s.sends, e.r, t'.arrived, v) {
      MissedStays(limits, s.sends, r, log, b.tally, now, u.send, u.index, roomy, e, v);
    }
  }

  lemma {:induction false} SequencedCountGrows(sends: seq<Record>, j: nat)
    requires j < |sends| && sends[j].channel.SequencedUnreliable?
    ensures SequencedCount(sends[..j]) < SequencedCount(sends)
  {
    var n := |sends| - 1;
    if j < n {
      assert sends[..n][..j] == sends[..j];
      SequencedCountGrows(sends[..n], j);
    }
  }

  lemma NumbersFitAll(s: Sender, j: nat)
    requires BookOk(s) && CountersFit(s) && j < |s.sends|
    ensures NumbersFit(s.sends[j])
  {
    assert Numbered(s.sends, j);
    if s.sends[j].channel.ReliableOrdered? { OrderedAt(s.sends, j); }
    if s.sends[j].channel.SequencedUnreliable? { SequencedCountGrows(s.sends, j); }
    if s.sends[j].Fragmented() { OriginalAt(s.sends, j); }
  }

  // A packet carrying a unit outside the reliable channels, past the replay window.
  lemma FreeArrives(limits: Limits, s: Sender, r: Receiver, log: seq<Delivery>, b: Book, now: nat, u: Unit, roomy: bool,
                    e: Effect)
    returns (b': Book)
    requires SenderOk(s) && CountersFit(s) && ReceiverOk(s, r, log, b)
    requires UnitOk(s, u) && !s.sends[u.send].channel.IsReliable() && u !in b.tally.arrived && Seen(s, b, u)
    requires e == DispatchAll(limits, r, now, EncodeMessage(s.sends[u.send].FreeFrame(u.index)), roomy)
    ensures ReceiverOk(s, e.r, log + e.out, b') && MissesStay(s, r, b, e.r, b') && BarsStay(s, b, b')
    ensures e.status.Err? ==> !limits.fragmentation.enabled
  {
    var rec := s.sends[u.send];
    NumbersFitAll(s, u.send);
    UnitFits(rec, u.index, 0);
    OneFrame(limits, r, now, rec.FreeFrame(u.index), roomy);
    FreeFrameLands(limits, r, now, rec, u.index, roomy);
    b' := UnitLands(limits, s, r, log, b, now, u, roomy, e);
    FreeBars(s, b, b', u);
  }

  ghost function WithId(b: Book, channel: Channel, id: nat): Book {
    if channel.ReliableOrdered? then b.(orderedIds := AcceptInto(b.orderedIds, id))
    else b.(reliableIds := AcceptInto(b.reliableIds, id))
  }

  lemma IdSlides(s: Sender, r: Receiver, log: seq<Delivery>, b: Book, channel: Channel, id: nat)
    requires ReceiverOk(s, r, log, b)
    ensures var r1 := WithIds(r, channel, Slide(IdsOf(r, channel), id).0);
      ReceiverOk(s, r1, log, WithId(b, channel, id)) && MissesStay(s, r, b, r1, WithId(b, channel, id))
    ensures Slide(IdsOf(r, channel), id).1 <==> Admits(Ids(b, channel), id)
  {
    SlideRefinesSet(IdsOf(r, channel), Ids(b, channel), id);
    WindowsMove(s, r, WithIds(r, channel, Slide(IdsOf(r, channel), id).0), log, b, WithId(b, channel, id));
  }

  // What a packet carrying a reliable unit does, past the replay window.
  lemma TrackedEffect(limits: Limits, r: Receiver, now: nat, rec: Record, i: nat, id: nat, roomy: bool)
    requires R.Consistent(r.reassembly) && rec.WellFormed() && NumbersFit(rec) && i < rec.Units()
    requires rec.channel.IsReliable() && Unambiguous(rec) && 0 < id < U64_LIMIT
    ensures var (window, unseen) := Slide(IdsOf(r, rec.channel), id);
      var r1 := WithIds(r, rec.channel, window);
      DispatchAll(limits, r, now, EncodeMessage(rec.TrackedFrame(i, id)), roomy)
        == if unseen then Land(limits, r1, now, rec, i, roomy) else Effect(r1, [], Ok)
  {
    UnitFits(rec, i, id);
    OneFrame(limits, r, now, rec.TrackedFrame(i, id), roomy);
    TrackedFrameLands(limits, r, now, rec, i, id, roomy);
  }

  // The unit of a reliable frame whose id is admitted.
  lemma TrackedLands(limits: Limits, s: Sender, r: Receiver, log: seq<Delivery>, b: Book, now: nat, n: nat,
                     channel: Channel, id: nat, u: Unit, roomy: bool, e: Effect)
    returns (b': Book)
    requires SenderOk(s) && ReceiverOk(s, r, log, WithId(b, channel, id))
    requires AllSeen(s, b) && IsFor(s, channel, id, u) && UnitOk(s, u) && Admits(Ids(b, channel), id)
    requires n in s.wire && s.wire[n].tag == Tracked(channel, id)
    requires e == Land(limits, r, now, s.sends[u.send], u.index, roomy)
    ensures ReceiverOk(s, e.r, log + e.out, b') && MissesStay(s, r, WithId(b, channel, id), e.r, b')
    ensures BarsStay(s, b, b') && (e.status.Err? ==> !limits.fragmentation.enabled)
  {
    var b1 := WithId(b, channel, id);
    FreshId(s, b, channel, id);
    assert Came(s, b1, n, u);
    b' := UnitLands(limits, s, r, log, b1, now, u, roomy, e);
    TrackedBars(s, b, b', channel, id, u);
  }

  // A packet carrying a reliable unit, past the replay window.
  lemma TrackedArrives(limits: Limits, s: Sender, r: Receiver, log: seq<Delivery>, b: Book, now: nat, n: nat,
                       channel: Channel, id: nat, u: Unit, roomy: bool, e: Effect)
    returns (b': Book)
    requires SenderOk(s) && CountersFit(s) && ReceiverOk(s, r, log, b)
    requires IsFor(s, channel, id, u) && IssueOk(s, channel, id)
    requires n in s.wire && s.wire[n].tag == Tracked(channel, id)
    requires e == DispatchAll(limits, r, now, EncodeMessage(s.sends[u.send].TrackedFrame(u.index, id)), roomy)
    ensures ReceiverOk(s, e.r, log + e.out, b') && MissesStay(s, r, b, e.r, b') && BarsStay(s, b, b')
    ensures e.status.Err? ==> !limits.fragmentation.enabled
  {
    NumbersFitAll(s, u.send);
    TrackedEffect(limits, r, now, s.sends[u.send], u.index, id, roomy);
    IdSlides(s, r, log, b, channel, id);
    if Admits(Ids(b, channel), id) {
      var r1 := WithIds(r, channel, Slide(IdsOf(r, channel), id).0);
      b' := TrackedLands(limits, s, r1, log, b, now, n, channel, id, u, roomy, e);
    } else {
      assert log + [] == log;
      b' := WithId(b, channel, id);
      NobodyBars(s, b, b');
    }
  }

  lemma AckArrives(limits: Limits, r: Receiver, now: nat, channel: Channel, id: nat, roomy: bool)
    requires R.Consistent(r.reassembly) && channel.IsReliable() && 0 < id < U64_LIMIT
    ensures DispatchAll(limits, r, now, EncodeMessage(Message(Control, CONTROL_ACK, EncodeAck(channel, id))), roomy)
         == Effect(r, [], Ok)
  {
    var m := Message(Control, CONTROL_ACK, EncodeAck(channel, id));
    AckWidths();
    AckRoundTrip(m.data, channel, id);
    OneFrame(limits, r, now, m, roomy);
  }

  // Any packet the sender built, accepted by the replay window for the first time.
  lemma FramesArrive(limits: Limits, s: Sender, r: Receiver, log: seq<Delivery>, b: Book, now: nat, n: nat, roomy: bool,
                     e: Effect)
    returns (b': Book)
    requires SenderOk(s) && CountersFit(s) && ReceiverOk(s, r, log, b) && n in s.wire && n in b.packets
    requires s.wire[n].tag.Free? ==> s.wire[n].tag.unit !in b.tally.arrived
    requires e == DispatchAll(limits, r, now, s.wire[n].bytes, roomy)
    ensures ReceiverOk(s, e.r, log + e.out, b') && MissesStay(s, r, b, e.r, b') && BarsStay(s, b, b')
    ensures e.status.Err? ==> !limits.fragmentation.enabled
  {
    var parcel := s.wire[n];
    assert ParcelOk(s, parcel);
    match parcel.tag
    case Free(u) =>
      assert Came(s, b, n, u);
      b' := FreeArrives(limits, s, r, log, b, now, u, roomy, e);
    case Tracked(channel, id) =>
      b' := TrackedArrives(limits, s, r, log, b, now, n, channel, id, s.issued[(channel, id)], roomy, e);
    case Receipt(channel, id) =>
      AckArrives(limits, r, now, channel, id, roomy);
      assert log + [] == log;
      b' := b;
    case Bare =>
      assert log + [] == log;
      b' := b;
  }

  lemma PacketArrives(limits: Limits, s: Sender, r: Receiver, log: seq<Delivery>, b: Book, now: nat, n: nat,
                      roomy: bool, e: Effect)
    returns (b': Book)
    requires SenderOk(s) && CountersFit(s) && ReceiverOk(s, r, log, b) && n in s.wire
    requires e == Receive(limits, r, now, n, s.wire[n].bytes, roomy)
    ensures ReceiverOk(s, e.r, log + e.out, b') && MissesStay(s, r, b, e.r, b') && BarsStay(s, b, b')
    ensures e.status.Err? ==> !limits.fragmentation.enabled
  {
    SlideRefinesSet(r.packets, b.packets, n);
    var r1 := r.(packets := Slide(r.packets, n).0);
    b' := b.(packets := AcceptInto(b.packets, n));
    WindowsMove(s, r, r1, log, b, b');
    NobodyBars(s, b, b');
    if Admits(b.packets, n) {
      if s.wire[n].tag.Free? { FreshPacket(s, b, n, s.wire[n].tag.unit); }
      b' := FramesArrive(limits, s, r1, log, b', now, n, roomy, e);
    } else {
      assert log + [] == log;
    }
  }

  // ------------------------------------------------------------------------- the runs

  lemma InvReady(limits: Limits, k: Link, b: Book)
    requires Inv(limits, k, b)
    ensures Ready(k)
  {
  }

  // What a step leaves to later steps: what landed, what the receiver missed, and what is barred.
  ghost predicate Lasts(k: Link, b: Book, k': Link, b': Book) {
    && b.tally.arrived <= b'.tally.arrived
    && (forall u | Missed(k.sender.sends, k.receiver, b.tally.arrived, u) ::
          Missed(k'.sender.sends, k'.receiver, b'.tally.arrived, u))
    && (forall channel, id, u | Barred(k.sender, b, channel, id, u) :: Barred(k'.sender, b', channel, id, u))
    && k.sender.sends <= k'.sender.sends
  }

  lemma ArriveKeeps(limits: Limits, k: Link, b: Book, step: Step, k': Link) returns (b': Book)
    requires Inv(limits, k, b) && CountersFit(k.sender) && Ready(k)
    requires Legal(k.sender, step) && step.Arrive? && k' == Apply(limits, k, step)
    ensures Inv(limits, k', b') && Lasts(k, b, k', b')
  {
    var e := Receive(limits, k.receiver, step.now, step.sequence, k.sender.wire[step.sequence].bytes, step.roomy);
    b' := PacketArrives(limits, k.sender, k.receiver, k.log, b, step.now, step.sequence, step.roomy, e);
  }

  lemma ExpireKeeps(limits: Limits, k: Link, b: Book, now: nat) returns (b': Book)
    requires Inv(limits, k, b) && R.Consistent(k.receiver.reassembly)
    ensures var k' := k.(receiver := ExpireReassembly(limits, k.receiver, now));
      Inv(limits, k', b') && Lasts(k, b, k', b')
  {
    var t' := ExpiryLands(limits, k.sender.sends, k.receiver, k.log, b.tally, now);
    b' := b.(tally := t');
    SeenMore(k.sender, b, b');
    NobodyBars(k.sender, b, b');
  }

  lemma SenderLasts(k: Link, b: Book, s': Sender)
    requires Grows(k.sender, s') && SendsGrow(k.sender.sends, s'.sends)
    ensures Lasts(k, b, k.(sender := s'), b)
  {
  }

  lemma SenderKeeps(limits: Limits, k: Link, b: Book, step: Step, k': Link)
    requires Inv(limits, k, b) && Ready(k) && Legal(k.sender, step) && BySender(step) && k' == Apply(limits, k, step)
    ensures Inv(limits, k', b) && Lasts(k, b, k', b)
  {
    SenderStepOk(k.sender, step);
    SenderMoves(limits, k, b, k'.sender);
    SenderLasts(k, b, k'.sender);
  }

  lemma StepKeeps(limits: Limits, k: Link, b: Book, step: Step, k': Link) returns (b': Book)
    requires Inv(limits, k, b) && Next(limits, k, step, k')
    ensures Inv(limits, k', b') && Lasts(k, b, k', b')
  {
    InvReady(limits, k, b);
    if step.Arrive? {
      b' := ArriveKeeps(limits, k, b, step, k');
    } else if step.Expire? {
      b' := ExpireKeeps(limits, k, b, step.now);
    } else {
      SenderKeeps(limits, k, b, step, k');
      b' := b;
    }
  }

  lemma StartInv(limits: Limits, k: Link) returns (b: Book)
    requires Start(k)
    ensures Inv(limits, k, b)
  {
    b := Book({}, {}, {}, Tally({}, map[], []));
    StartSenderOk(k.sender);
    StartWindowsOk(b);
    NothingLanded();
  }

  lemma StartWindowsOk(b: Book)
    requires b.packets == {} && b.reliableIds == {} && b.orderedIds == {}
    ensures WindowsOk(FRESH, b)
  {
  }

  lemma StartSenderOk(s: Sender)
    requires SessionsValid(s) && s.reliable.pending == [] && s.ordered.pending == []
    requires s.seqNo == s.nextOrdered == s.nextSequenced == s.nextFragment == 1
    requires s.sends == [] && s.wire == map[] && s.issued == map[]
    ensures SenderOk(s)
  {
  }

  lemma {:induction false} InvariantHolds(limits: Limits, states: seq<Link>, steps: seq<Step>) returns (b: Book)
    requires IsRun(limits, states, steps)
    ensures Inv(limits, states[|steps|], b)
    decreases |steps|
  {
    var n := |steps|;
    if n == 0 {
      b := StartInv(limits, states[0]);
    } else {
      var before := InvariantHolds(limits, states[..n], steps[..n - 1]);
      b := StepKeeps(limits, states[n - 1], before, steps[n - 1], states[n]);
    }
  }

  // ---------------------------------------------------------------------- the theorems

  // What the receiver handed over on the ordered channel is a prefix of what the sender numbered there.
  lemma OrderedLogIsPrefix(limits: Limits, states: seq<Link>, steps: seq<Step>)
    requires IsRun(limits, states, steps)
    ensures var k := states[|steps|]; OrderedPart(k.log) <= OrderedOf(k.sender.sends)
  {
    var b := InvariantHolds(limits, states, steps);
  }

  // Delivery k is the message sent origins[k]-th: sent by the peer, on another channel than the ordered one.
  ghost predicate Explains(sends: seq<Record>, direct: seq<Delivery>, origins: seq<nat>) {
    && |origins| == |direct|
    && forall k | 0 <= k < |origins| ::
      && origins[k] < |sends| && !sends[origins[k]].channel.ReliableOrdered?
      && direct[k] == Delivery(sends[origins[k]].channel, sends[origins[k]].kind, sends[origins[k]].payload)
  }

  ghost predicate AllDifferent(origins: seq<nat>) {
    forall k, l | 0 <= k < l < |origins| :: origins[k] != origins[l]
  }

  // Sequenced deliveries come in the order the messages were sent.
  ghost predicate LatestWins(sends: seq<Record>, origins: seq<nat>) {
    forall k, l | 0 <= k < l < |origins| && Sequenced(sends, origins[k]) && Sequenced(sends, origins[l]) ::
      origins[k] < origins[l]
  }

  ghost predicate DeliveredAtMostOnce(k: Link) {
    exists origins ::
      && Explains(k.sender.sends, DirectPart(k.log), origins) && AllDifferent(origins)
      && LatestWins(k.sender.sends, origins)
  }

  lemma SequencedNumbersFollow(sends: seq<Record>, i: nat, j: nat)
    requires AllNumbered(sends) && i < j < |sends| && Sequenced(sends, i) && Sequenced(sends, j)
    ensures sends[i].number < sends[j].number
  {
    assert Numbered(sends, i) && Numbered(sends, j) && sends[..j][..i] == sends[..i];
    SequencedCountGrows(sends[..j], i);
  }

  lemma OriginsInOrder(sends: seq<Record>, r: Receiver, log: seq<Delivery>, t: Tally)
    requires LandOk(sends, r, log, t)
    ensures LatestWins(sends, t.origins)
  {
    forall k, l | 0 <= k < l < |t.origins| && Sequenced(sends, t.origins[k]) && Sequenced(sends, t.origins[l])
      ensures t.origins[k] < t.origins[l]
    {
      if t.origins[l] < t.origins[k] { SequencedNumbersFollow(sends, t.origins[l], t.origins[k]); }
    }
  }

  // Every other delivery is of a message the peer sent, no send is delivered twice, and sequenced
  // deliveries never go back.
  lemma NothingTwice(limits: Limits, states: seq<Link>, steps: seq<Step>)
    requires IsRun(limits, states, steps)
    ensures DeliveredAtMostOnce(states[|steps|])
  {
    var k := states[|steps|];
    var b := InvariantHolds(limits, states, steps);
    var t, sends := b.tally, k.sender.sends;
    forall i | 0 <= i < |t.origins|
      ensures t.origins[i] < |sends| && !sends[t.origins[i]].channel.ReliableOrdered?
        && DirectPart(k.log)[i]
             == Delivery(sends[t.origins[i]].channel, sends[t.origins[i]].kind, sends[t.origins[i]].payload)
    {
      assert OriginOk(sends, t, t.origins[i], DirectPart(k.log)[i]);
    }
    OriginsInOrder(sends, k.receiver, k.log, t);
    assert Explains(sends, DirectPart(k.log), t.origins);
  }

  // The session's own data-phase packets, however often and in whatever order they come, never fail the connection
  // unless the receiver has fragmentation switched off; and the requirements of every step are met all along.
  lemma DataPacketsNeverFail(limits: Limits, states: seq<Link>, steps: seq<Step>)
    requires IsRun(limits, states, steps)
    ensures Ready(states[|steps|])
    ensures states[|steps|].failed ==> !limits.fragmentation.enabled
  {
    var b := InvariantHolds(limits, states, steps);
    InvReady(limits, states[|steps|], b);
  }
}
