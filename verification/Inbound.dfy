// The receiving side: replay window, frame dispatch, id windows, reassembly and delivery.
module Inbound {
  import opened Config
  import opened Codec
  import opened Fragments
  import opened Windows
  import opened Outbound
  import R = Reassembly
  import O = Ordered

  datatype Limits = Limits(fragmentation: FragmentationConfig, orderedWindow: nat)

  datatype Receiver = Receiver(
    packets: Window, reliableIds: Window, orderedIds: Window,
    ordered: O.State, latest: nat, reassembly: R.State)

  const FRESH := Receiver(EMPTY_WINDOW, EMPTY_WINDOW, EMPTY_WINDOW, O.START, 0, R.EMPTY)

  // A message handed to the application.
  datatype Delivery = Delivery(channel: Channel, kind: byte, payload: seq<byte>)

  // The receiver afterwards, what was delivered, and whether the connection fails.
  datatype Effect = Effect(r: Receiver, out: seq<Delivery>, status: Status)

  function OrderedDeliveries(apps: seq<O.App>): (ds: seq<Delivery>)
    ensures |ds| == |apps|
  {
    seq(|apps|, i requires 0 <= i < |apps| => Delivery(ReliableOrdered, apps[i].kind, apps[i].payload))
  }

  // deliver_application_message
  function Deliver(limits: Limits, r: Receiver, d: Delivery, number: nat): Effect {
    match d.channel
    case ReliableOrdered =>
      var (st, apps, verdict) := O.AcceptMessage(r.ordered, limits.orderedWindow, number, O.App(d.kind, d.payload));
      Effect(r.(ordered := st), OrderedDeliveries(apps), if verdict.Invalid? then Err(BadPacket) else Ok)
    case SequencedUnreliable =>
      if number == 0 || number <= r.latest then Effect(r, [], Ok)
      else Effect(r.(latest := number), [d], Ok)
    case _ => Effect(r, [d], Ok)
  }

  function DeliveryOf(m: R.Whole): Delivery { Delivery(m.channel, m.kind, m.payload) }

  // The completion callback fails exactly when the ordered window refuses number 0.
  function Deliverable(): R.Whole -> bool {
    (m: R.Whole) => !(m.channel.ReliableOrdered? && m.deliverySequence == 0)
  }

  // What the reassembler's verdict means for the connection; the completion callback delivers the message.
  function Conclude(limits: Limits, r: Receiver, outcome: R.Outcome): Effect {
    match outcome
    case Rejected(e) => Effect(r, [], if e == QueueFull || e == TooLarge then Ok else Err(e))
    case Completed(m) => Deliver(limits, r, DeliveryOf(m), m.deliverySequence)
    case Refused(m) => Effect(r, [], Err(BadPacket))
    case _ => Effect(r, [], Ok)
  }

  // handle_fragment_payload; `roomy` is the server's check of its total reassembly memory.
  function HandleFragment(limits: Limits, r: Receiver, now: nat, f: Fragment, roomy: bool): Effect
    requires R.Consistent(r.reassembly)
  {
    if f.messageId !in r.reassembly.entries && !roomy then Effect(r, [], Ok)
    else
      var (st, outcome) := R.AcceptFragment(limits.fragmentation, r.reassembly, now, f, Deliverable());
      Conclude(limits, r.(reassembly := st), outcome)
  }

  // The body of a reliable message, once its id was accepted.
  function HandleReliable(limits: Limits, r: Receiver, now: nat, channel: Channel, kind: byte, data: seq<byte>,
                          roomy: bool): Effect
    requires R.Consistent(r.reassembly)
  {
    if kind == CONTROL_FRAGMENT && ReadFragment(data).Success? then
      HandleFragment(limits, r, now, ReadFragment(data).value, roomy)
    else if channel.ReliableOrdered? then
      var inner := ReadNumbered(data);
      if inner.Failure? then Effect(r, [], Err(BadPacket))
      else Deliver(limits, r, Delivery(ReliableOrdered, kind, inner.value.1), inner.value.0)
    else Deliver(limits, r, Delivery(Reliable, kind, data), 0)
  }

  // dispatch_message_frame
  function Dispatch(limits: Limits, r: Receiver, now: nat, m: Message, roomy: bool): Effect
    requires R.Consistent(r.reassembly)
  {
    match m.channel
    case Control =>
      if m.kind == CONTROL_ACK then Effect(r, [], if ReadAck(m.data).Success? then Ok else Err(BadPacket))
      else if m.kind == CONTROL_FRAGMENT then
        if ReadFragment(m.data).Failure? then Effect(r, [], Err(BadPacket))
        else HandleFragment(limits, r, now, ReadFragment(m.data).value, roomy)
      else Effect(r, [], Err(ProtocolError))
    case SequencedUnreliable =>
      var inner := ReadNumbered(m.data);
      if inner.Failure? then Effect(r, [], Err(BadPacket))
      else Deliver(limits, r, Delivery(SequencedUnreliable, m.kind, inner.value.1), inner.value.0)
    case Unreliable => Deliver(limits, r, Delivery(Unreliable, m.kind, m.data), 0)
    case _ =>
      var outer := ReadNumbered(m.data);
      if outer.Failure? then Effect(r, [], Err(BadPacket))
      else
        var (window, unseen) := Slide(IdsOf(r, m.channel), outer.value.0);
        var r1 := WithIds(r, m.channel, window);
        if !unseen then Effect(r1, [], Ok)
        else HandleReliable(limits, r1, now, m.channel, m.kind, outer.value.1, roomy)
  }

  // What a frame asks of the sending side: to acknowledge an id to the peer, or to take one as acknowledged.
  datatype Signal = Acknowledge(channel: Channel, id: nat) | Heard(channel: Channel, id: nat)

  // An acknowledgement is due before the id, the order or the room is looked at.
  function SignalsOf(m: Message): seq<Signal> {
    if m.channel.IsReliable() && ReadNumbered(m.data).Success? then
      [Acknowledge(m.channel, ReadNumbered(m.data).value.0)]
    else if m.channel.Control? && m.kind == CONTROL_ACK && ReadAck(m.data).Success? then
      [Heard(ReadAck(m.data).value.0, ReadAck(m.data).value.1)]
    else []
  }

  // The signals of the frames in turn, until one fails the connection.
  function SignalsAll(limits: Limits, r: Receiver, now: nat, s: seq<byte>, roomy: bool): seq<Signal>
    requires R.Consistent(r.reassembly)
    decreases |s|
  {
    if s == [] || ReadMessage(s).Failure? then []
    else
      var (m, rest) := ReadMessage(s).value;
      var first := Dispatch(limits, r, now, m, roomy);
      DispatchConsistent(limits, r, now, m, roomy);
      SignalsOf(m) + if first.status.Err? then [] else SignalsAll(limits, first.r, now, rest, roomy)
  }

  // A signal names a reliable channel and an id that its encoding can hold.
  predicate Proper(signal: Signal) { signal.channel.IsReliable() && 0 < signal.id < U64_LIMIT }

  // A frame has the sender take an id of a channel as acknowledged if and only if it is the acknowledgement of that
  // id on that channel.
  lemma HeardIff(m: Message, channel: Channel, id: nat)
    ensures Heard(channel, id) in SignalsOf(m) <==>
      && m.channel.Control? && m.kind == CONTROL_ACK
      && channel.IsReliable() && 0 < id < U64_LIMIT && m.data == EncodeAck(channel, id)
  {
    if ReadAck(m.data).Success? { AckInRange(m.data); }
    if id < U64_LIMIT { AckRoundTrip(m.data, channel, id); }
  }

  // It asks for the acknowledgement of an id if and only if it is a reliable message with that id.
  lemma AcknowledgeIff(m: Message, channel: Channel, id: nat)
    requires |m.data| < U16_LIMIT
    ensures Acknowledge(channel, id) in SignalsOf(m) <==>
      && m.channel == channel && channel.IsReliable() && 0 < id < U64_LIMIT
      && exists data :: m.data == EncodeNumbered(id, data)
  {
    if ReadNumbered(m.data).Success? { EncodeOfReadNumbered(m.data); }
    if 0 < id < U64_LIMIT {
      forall data | m.data == EncodeNumbered(id, data) ensures ReadNumbered(m.data) == Success((id, data)) {
        ReadNumberedOfEncode(id, data);
      }
    }
  }

  // No frame gives more than one signal, and each is proper.
  lemma SignalsProper(m: Message)
    ensures |SignalsOf(m)| <= 1 && forall signal | signal in SignalsOf(m) :: Proper(signal)
  {
    if ReadNumbered(m.data).Success? { EncodeOfReadNumbered(m.data); }
    if ReadAck(m.data).Success? { AckInRange(m.data); }
  }

  lemma {:induction false} AllSignalsProper(limits: Limits, r: Receiver, now: nat, s: seq<byte>, roomy: bool)
    requires R.Consistent(r.reassembly)
    ensures forall signal | signal in SignalsAll(limits, r, now, s, roomy) :: Proper(signal)
    decreases |s|
  {
    if s != [] && ReadMessage(s).Success? {
      var (m, rest) := ReadMessage(s).value;
      SignalsProper(m);
      DispatchConsistent(limits, r, now, m, roomy);
      AllSignalsProper(limits, Dispatch(limits, r, now, m, roomy).r, now, rest, roomy);
    }
  }

  // The signals of a packet: none unless the replay window takes it.
  function ReceivedSignals(limits: Limits, r: Receiver, now: nat, sequence: nat, s: seq<byte>, roomy: bool): seq<Signal>
    requires R.Consistent(r.reassembly)
  {
    var (window, unseen) := Slide(r.packets, sequence);
    if sequence > 0 && unseen then SignalsAll(limits, r.(packets := window), now, s, roomy) else []
  }

  function IdsOf(r: Receiver, channel: Channel): Window {
    if channel.ReliableOrdered? then r.orderedIds else r.reliableIds
  }

  function WithIds(r: Receiver, channel: Channel, w: Window): Receiver {
    if channel.ReliableOrdered? then r.(orderedIds := w) else r.(reliableIds := w)
  }

  // dispatch_message_payload: the frames in turn, until one fails the connection.
  function DispatchAll(limits: Limits, r: Receiver, now: nat, s: seq<byte>, roomy: bool): Effect
    requires R.Consistent(r.reassembly)
    decreases |s|
  {
    if s == [] then Effect(r, [], Ok)
    else
      match ReadMessage(s)
      case Failure(e) => Effect(r, [], Err(e))
      case Success((m, rest)) =>
        var first := Dispatch(limits, r, now, m, roomy);
        DispatchConsistent(limits, r, now, m, roomy);
        if first.status.Err? then first
        else
          var more := DispatchAll(limits, first.r, now, rest, roomy);
          Effect(more.r, first.out + more.out, more.status)
  }

  // handle_established_packet for a packet that decrypted: replay check, then its frames.
  function Receive(limits: Limits, r: Receiver, now: nat, sequence: nat, s: seq<byte>, roomy: bool): Effect
    requires R.Consistent(r.reassembly)
  {
    if sequence == 0 then Effect(r, [], Err(ProtocolError))
    else
      var (window, unseen) := Slide(r.packets, sequence);
      var r1 := r.(packets := window);
      if !unseen then Effect(r1, [], Ok) else DispatchAll(limits, r1, now, s, roomy)
  }

  ghost function ExpireReassembly(limits: Limits, r: Receiver, now: nat): (r': Receiver)
    requires R.Consistent(r.reassembly)
    ensures R.Consistent(r'.reassembly)
  {
    r.(reassembly := R.Unexpired(limits.fragmentation, r.reassembly, now))
  }

  // ------------------------------------------------------ the reassembler stays consistent

  lemma HandleFragmentConsistent(limits: Limits, r: Receiver, now: nat, f: Fragment, roomy: bool)
    requires R.Consistent(r.reassembly)
    ensures R.Consistent(HandleFragment(limits, r, now, f, roomy).r.reassembly)
  {
    R.AcceptKeepsValid(limits.fragmentation, r.reassembly, now, f, Deliverable());
  }

  lemma DispatchConsistent(limits: Limits, r: Receiver, now: nat, m: Message, roomy: bool)
    requires R.Consistent(r.reassembly)
    ensures R.Consistent(Dispatch(limits, r, now, m, roomy).r.reassembly)
  {
    var direct := ReadFragment(m.data);
    if m.channel.Control? && direct.Success? { HandleFragmentConsistent(limits, r, now, direct.value, roomy); }
    if m.channel.IsReliable() && ReadNumbered(m.data).Success? {
      var (id, data) := ReadNumbered(m.data).value;
      var r1 := WithIds(r, m.channel, Slide(IdsOf(r, m.channel), id).0);
      if ReadFragment(data).Success? { HandleFragmentConsistent(limits, r1, now, ReadFragment(data).value, roomy); }
    }
  }

  // -------------------------------------------------- an honest frame lands its unit

  // What a unit does once it is past the windows.
  function Land(limits: Limits, r: Receiver, now: nat, rec: Record, i: nat, roomy: bool): Effect
    requires R.Consistent(r.reassembly) && rec.WellFormed() && i < rec.Units()
  {
    if rec.Fragmented() then HandleFragment(limits, r, now, R.FragmentOf(rec.AsWhole(), i), roomy)
    else Deliver(limits, r, Delivery(rec.channel, rec.kind, rec.payload), rec.number)
  }

  // Its bytes cannot be taken for a fragment: inline user type 2 shares its value with the fragment type.
  predicate Unambiguous(rec: Record)
    requires rec.WellFormed()
  {
    rec.Fragmented() || !rec.channel.IsReliable() || rec.kind != CONTROL_FRAGMENT || ReadFragment(rec.Body(0)).Failure?
  }

  predicate NumbersFit(rec: Record) { rec.number < U64_LIMIT && rec.fragmentId < U64_LIMIT }

  lemma BodyIsFragment(rec: Record, i: nat)
    requires rec.WellFormed() && NumbersFit(rec) && rec.Fragmented() && i < rec.Units()
    ensures ReadFragment(rec.Body(i)) == Success(R.FragmentOf(rec.AsWhole(), i))
  {
    FragmentRoundTrip(rec.Body(i), R.FragmentOf(rec.AsWhole(), i));
  }

  lemma FreeFrameLands(limits: Limits, r: Receiver, now: nat, rec: Record, i: nat, roomy: bool)
    requires R.Consistent(r.reassembly) && rec.WellFormed() && NumbersFit(rec) && i < rec.Units()
    requires !rec.channel.IsReliable()
    ensures Dispatch(limits, r, now, rec.FreeFrame(i), roomy) == Land(limits, r, now, rec, i, roomy)
  {
    if rec.Fragmented() {
      BodyIsFragment(rec, i);
    } else if rec.number > 0 {
      ReadNumberedOfEncode(rec.number, rec.payload);
    }
  }

  // A reliable unit lands when its id is fresh, and does nothing when it is not.
  lemma TrackedFrameLands(limits: Limits, r: Receiver, now: nat, rec: Record, i: nat, id: nat, roomy: bool)
    requires R.Consistent(r.reassembly) && rec.WellFormed() && NumbersFit(rec) && i < rec.Units()
    requires rec.channel.IsReliable() && Unambiguous(rec) && 0 < id < U64_LIMIT
    ensures var (window, unseen) := Slide(IdsOf(r, rec.channel), id);
      var r1 := WithIds(r, rec.channel, window);
      Dispatch(limits, r, now, rec.TrackedFrame(i, id), roomy)
        == if unseen then Land(limits, r1, now, rec, i, roomy) else Effect(r1, [], Ok)
  {
    UnitFits(rec, i, id);
    ReadNumberedOfEncode(id, rec.Body(i));
    BodyLands(limits, WithIds(r, rec.channel, Slide(IdsOf(r, rec.channel), id).0), now, rec, i, roomy);
  }

  lemma BodyLands(limits: Limits, r: Receiver, now: nat, rec: Record, i: nat, roomy: bool)
    requires R.Consistent(r.reassembly) && rec.WellFormed() && NumbersFit(rec) && i < rec.Units()
    requires rec.channel.IsReliable() && Unambiguous(rec)
    ensures HandleReliable(limits, r, now, rec.channel, rec.FrameKind(), rec.Body(i), roomy)
         == Land(limits, r, now, rec, i, roomy)
  {
    if rec.Fragmented() {
      BodyIsFragment(rec, i);
    } else if rec.number > 0 {
      ReadNumberedOfEncode(rec.number, rec.payload);
    }
  }

  // A packet of one frame does what the frame does.
  lemma OneFrame(limits: Limits, r: Receiver, now: nat, m: Message, roomy: bool)
    requires R.Consistent(r.reassembly) && |m.data| < U16_LIMIT
    ensures DispatchAll(limits, r, now, EncodeMessage(m), roomy) == Dispatch(limits, r, now, m, roomy)
  {
    ReadMessageOfEncode(m, []);
    assert EncodeMessage(m) + [] == EncodeMessage(m);
    DispatchConsistent(limits, r, now, m, roomy);
    var first := Dispatch(limits, r, now, m, roomy);
    assert first.out + [] == first.out;
  }

  lemma OneFrameSignals(limits: Limits, r: Receiver, now: nat, m: Message, roomy: bool)
    requires R.Consistent(r.reassembly) && |m.data| < U16_LIMIT
    ensures SignalsAll(limits, r, now, EncodeMessage(m), roomy) == SignalsOf(m)
  {
    ReadMessageOfEncode(m, []);
    assert EncodeMessage(m) + [] == EncodeMessage(m);
    DispatchConsistent(limits, r, now, m, roomy);
  }

  // ------------------------------------------------------- inline user type 2, exactly

  // An inline message of type 2 that parses as a fragment is handled as that fragment.
  lemma Misread(limits: Limits, r: Receiver, now: nat, rec: Record, id: nat, roomy: bool)
    requires R.Consistent(r.reassembly) && rec.WellFormed() && rec.channel.IsReliable() && !Unambiguous(rec)
    requires 0 < id < U64_LIMIT && Slide(IdsOf(r, rec.channel), id).1
    ensures ReadFragment(rec.Body(0)).Success?
    ensures Dispatch(limits, r, now, rec.TrackedFrame(0, id), roomy)
         == HandleFragment(limits, WithIds(r, rec.channel, Slide(IdsOf(r, rec.channel), id).0), now,
                           ReadFragment(rec.Body(0)).value, roomy)
  {
    UnitFits(rec, 0, id);
    ReadNumberedOfEncode(id, rec.Body(0));
  }

  // What the application is handed first, if anything, is this message.
  predicate Heads(out: seq<Delivery>, rec: Record) {
    out != [] && out[0] == Delivery(rec.channel, rec.kind, rec.payload)
  }

  // A reliable inline message, when its turn comes, reaches the application as itself if and only if its bytes
  // cannot be taken for a fragment, in every receiver that is not reassembling the message that fragment names.
  lemma InlineArrivesIffUnambiguous(limits: Limits, r: Receiver, now: nat, rec: Record, id: nat, roomy: bool)
    requires R.Consistent(r.reassembly) && rec.WellFormed() && NumbersFit(rec)
    requires rec.channel.IsReliable() && !rec.Fragmented()
    requires ReadFragment(rec.Body(0)).Success? ==> ReadFragment(rec.Body(0)).value.messageId !in r.reassembly.entries
    requires 0 < id < U64_LIMIT && Slide(IdsOf(r, rec.channel), id).1
    requires rec.channel.ReliableOrdered? ==> rec.number == r.ordered.next
    ensures Heads(Dispatch(limits, r, now, rec.TrackedFrame(0, id), roomy).out, rec) <==> Unambiguous(rec)
  {
    var r1 := WithIds(r, rec.channel, Slide(IdsOf(r, rec.channel), id).0);
    if Unambiguous(rec) {
      TrackedFrameLands(limits, r, now, rec, 0, id, roomy);
      InlineHeads(limits, r1, rec);
    } else {
      Misread(limits, r, now, rec, id, roomy);
      var f := ReadFragment(rec.Body(0)).value;
      FragmentRoundTrip(rec.Body(0), f);
      FragmentWidths();
      FirstFragmentShorter(limits, r1, now, f, roomy);
    }
  }

  lemma InlineHeads(limits: Limits, r: Receiver, rec: Record)
    requires rec.WellFormed() && rec.channel.IsReliable()
    requires (rec.channel.ReliableOrdered? ==> rec.number == r.ordered.next)
    ensures Heads(Deliver(limits, r, Delivery(rec.channel, rec.kind, rec.payload), rec.number).out, rec)
  {
  }

  // The first fragment of a message delivers at most that fragment's bytes.
  lemma FirstFragmentShorter(limits: Limits, r: Receiver, now: nat, f: Fragment, roomy: bool)
    requires R.Consistent(r.reassembly) && f.messageId !in r.reassembly.entries && Writable(f)
    ensures var out := HandleFragment(limits, r, now, f, roomy).out; out != [] ==> |out[0].payload| <= |f.data|
  {
    Layout(f.length, f.index);
    var e := R.NewEntry(now, f);
    R.TruesUpdate(e.received, f.index);
    R.NoTrues(f.count);
    if f.count == 1 { Layout(f.length, 0); }
  }

  // A reliable message of user type 2 whose payload looks like a fragment is delivered as something else.
  lemma TypeTwoCollides(limits: Limits, payload: seq<byte>)
    requires limits.fragmentation.Valid() && limits.fragmentation.enabled
    requires payload == EncodeFragment(R.FragmentOf(R.Whole(1, 0, Unreliable, 7, [65]), 0))
    ensures var rec := Record(Reliable, CONTROL_FRAGMENT, payload, 0, 0);
      && rec.WellFormed() && R.Consistent(FRESH.reassembly) && |payload| == 25
      && Dispatch(limits, FRESH, 0, rec.TrackedFrame(0, 1), true).out == [Delivery(Unreliable, 7, [65])]
  {
    var m := R.Whole(1, 0, Unreliable, 7, [65]);
    var rec := Record(Reliable, CONTROL_FRAGMENT, payload, 0, 0);
    FragmentWidths();
    FragmentRoundTrip(payload, R.FragmentOf(m, 0));
    Misread(limits, FRESH, 0, rec, 1, true);
    LoneFragmentDelivers(limits, FRESH.(reliableIds := Slide(EMPTY_WINDOW, 1).0), m);
  }

  lemma LoneFragmentDelivers(limits: Limits, r: Receiver, m: R.Whole)
    requires limits.fragmentation.Valid() && limits.fragmentation.enabled && r.reassembly == R.EMPTY
    requires m.channel.Unreliable? && 0 < |m.payload| <= limits.fragmentation.maxReassembledMessageBytes
    requires Count(|m.payload|) == 1
    ensures R.Splittable(m) && R.Consistent(r.reassembly)
    ensures HandleFragment(limits, r, 0, R.FragmentOf(m, 0), true).out == [DeliveryOf(m)]
  {
    R.LoneFragmentCompletes(limits.fragmentation, 0, m, Deliverable());
  }

  // ----------------------------------------------------------------------------- class

  function Prepend(out: seq<Delivery>, e: Effect): Effect { e.(out := out + e.out) }

  // One round of the loop: the first frame, then the rest with what the first one delivered put before.
  lemma DispatchStep(limits: Limits, r: Receiver, now: nat, s: seq<byte>, roomy: bool, out: seq<Delivery>,
                     first: Effect, m: Message, more: seq<byte>)
    requires R.Consistent(r.reassembly) && s != [] && ReadMessage(s) == Success((m, more))
    requires first == Dispatch(limits, r, now, m, roomy)
    ensures R.Consistent(first.r.reassembly)
    ensures Prepend(out, DispatchAll(limits, r, now, s, roomy)) ==
      if first.status.Err? then Prepend(out, first)
      else Prepend(out + first.out, DispatchAll(limits, first.r, now, more, roomy))
  {
    DispatchConsistent(limits, r, now, m, roomy);
    if first.status.Ok? {
      var tail := DispatchAll(limits, first.r, now, more, roomy).out;
      assert out + (first.out + tail) == (out + first.out) + tail;
    }
  }

  lemma SignalsStep(limits: Limits, r: Receiver, now: nat, s: seq<byte>, roomy: bool, first: Effect, m: Message,
                    more: seq<byte>)
    requires R.Consistent(r.reassembly) && s != [] && ReadMessage(s) == Success((m, more))
    requires first == Dispatch(limits, r, now, m, roomy) && R.Consistent(first.r.reassembly)
    ensures SignalsAll(limits, r, now, s, roomy) ==
      SignalsOf(m) + if first.status.Err? then [] else SignalsAll(limits, first.r, now, more, roomy)
  {
  }

  lemma SignalsJoin(a: seq<Signal>, b: seq<Signal>, c: seq<Signal>)
    ensures a + (b + c) == (a + b) + c && a + [] == a
  {
  }

  class InboundConnection {
    const limits: Limits
    const packetWindow: ReplayWindow
    const reliableWindow: ReliableReceiveWindow
    const orderedWindow: ReliableReceiveWindow
    const ordered: O.OrderedReceiveWindow
    const sequenced: SequencedReceiveWindow
    const reassembler: R.FragmentReassembler

    ghost function Value(): Receiver
      reads packetWindow, reliableWindow, orderedWindow, ordered, sequenced, reassembler
    {
      Receiver(packetWindow.Value(), reliableWindow.Value(), orderedWindow.Value(), ordered.Value(), sequenced.latest,
               reassembler.Value())
    }

    ghost predicate Valid()
      reads packetWindow, reliableWindow, orderedWindow, ordered, sequenced, reassembler
    {
      && reliableWindow != orderedWindow && packetWindow.Valid() && reliableWindow.Valid() && orderedWindow.Valid()
      && sequenced.Valid() && reassembler.Valid() && R.Consistent(Value().reassembly)
      && ordered.maxBuffered == limits.orderedWindow && reassembler.cfg == limits.fragmentation
    }

    constructor (limits: Limits)
      ensures Valid() && Value() == FRESH && this.limits == limits
    {
      this.limits := limits;
      packetWindow := new ReplayWindow();
      reliableWindow := new ReliableReceiveWindow();
      orderedWindow := new ReliableReceiveWindow();
      ordered := new O.OrderedReceiveWindow(limits.orderedWindow);
      sequenced := new SequencedReceiveWindow();
      reassembler := new R.FragmentReassembler(limits.fragmentation);
    }

    method DeliverMessage(d: Delivery, number: nat) returns (out: seq<Delivery>, status: Status)
      requires Valid()
      modifies ordered, sequenced
      ensures Valid() && Effect(Value(), out, status) == Deliver(limits, old(Value()), d, number)
    {
      if d.channel == ReliableOrdered {
        var apps, verdict := ordered.Accept(number, d.kind, d.payload);
        return OrderedDeliveries(apps), if verdict.Invalid? then Err(BadPacket) else Ok;
      }
      if d.channel == SequencedUnreliable {
        var newer := sequenced.Accept(number);
        return if newer then [d] else [], Ok;
      }
      return [d], Ok;
    }

    method AcceptPiece(now: nat, f: Fragment, roomy: bool) returns (out: seq<Delivery>, status: Status)
      requires Valid()
      modifies ordered, sequenced, reassembler
      ensures Valid() && Effect(Value(), out, status) == HandleFragment(limits, old(Value()), now, f, roomy)
    {
      if f.messageId !in reassembler.entries && !roomy { return [], Ok; }
      var outcome := reassembler.Accept(now, f, Deliverable());
      match outcome
      case Rejected(e) => return [], if e == QueueFull || e == TooLarge then Ok else Err(e);
      case Completed(m) => out, status := DeliverMessage(DeliveryOf(m), m.deliverySequence);
      case Refused(m) => return [], Err(BadPacket);
      case _ => return [], Ok;
    }

    method AcceptReliableBody(now: nat, channel: Channel, kind: byte, data: seq<byte>, roomy: bool)
      returns (out: seq<Delivery>, status: Status)
      requires Valid()
      modifies ordered, sequenced, reassembler
      ensures Valid()
      ensures Effect(Value(), out, status) == HandleReliable(limits, old(Value()), now, channel, kind, data, roomy)
    {
      if kind == CONTROL_FRAGMENT {
        var fragment := ReadFragment(data);
        if fragment.Success? {
          out, status := AcceptPiece(now, fragment.value, roomy);
          return;
        }
      }
      if channel == ReliableOrdered {
        var inner := ReadNumbered(data);
        if inner.Failure? { return [], Err(BadPacket); }
        out, status := DeliverMessage(Delivery(ReliableOrdered, kind, inner.value.1), inner.value.0);
        return;
      }
      out, status := DeliverMessage(Delivery(Reliable, kind, data), 0);
    }

    method AcceptId(channel: Channel, id: nat) returns (unseen: bool)
      requires Valid() && id != 0
      modifies reliableWindow, orderedWindow
      ensures Valid()
      ensures (Value(), unseen) ==
        var (w, ok) := Slide(IdsOf(old(Value()), channel), id); (WithIds(old(Value()), channel, w), ok)
    {
      if channel == ReliableOrdered {
        unseen := orderedWindow.Accept(id);
      } else {
        unseen := reliableWindow.Accept(id);
      }
    }

    method DispatchFrame(now: nat, m: Message, roomy: bool)
      returns (out: seq<Delivery>, status: Status, signals: seq<Signal>)
      requires Valid()
      modifies reliableWindow, orderedWindow, ordered, sequenced, reassembler
      ensures Valid() && Effect(Value(), out, status) == Dispatch(limits, old(Value()), now, m, roomy)
      ensures signals == SignalsOf(m)
    {
      signals := [];
      if m.channel == Control {
        if m.kind == CONTROL_ACK {
          var ack := ReadAck(m.data);
          if ack.Failure? { return [], Err(BadPacket), []; }
          return [], Ok, [Heard(ack.value.0, ack.value.1)];
        }
        if m.kind == CONTROL_FRAGMENT {
          var fragment := ReadFragment(m.data);
          if fragment.Failure? { return [], Err(BadPacket), []; }
          out, status := AcceptPiece(now, fragment.value, roomy);
          return;
        }
        return [], Err(ProtocolError), [];
      }
      if m.channel == Reliable || m.channel == ReliableOrdered {
        var outer := ReadNumbered(m.data);
        if outer.Failure? { return [], Err(BadPacket), []; }
        signals := [Acknowledge(m.channel, outer.value.0)];
        var unseen := AcceptId(m.channel, outer.value.0);
        if !unseen { return [], Ok, signals; }
        out, status := AcceptReliableBody(now, m.channel, m.kind, outer.value.1, roomy);
        return;
      }
      if m.channel == SequencedUnreliable {
        var inner := ReadNumbered(m.data);
        if inner.Failure? { return [], Err(BadPacket), []; }
        out, status := DeliverMessage(Delivery(SequencedUnreliable, m.kind, inner.value.1), inner.value.0);
        return;
      }
      out, status := DeliverMessage(Delivery(m.channel, m.kind, m.data), 0);
    }

    // The loop of dispatch_message_payload.
    method DispatchPayload(now: nat, s: seq<byte>, roomy: bool)
      returns (out: seq<Delivery>, status: Status, signals: seq<Signal>)
      requires Valid()
      modifies reliableWindow, orderedWindow, ordered, sequenced, reassembler
      ensures Valid() && Effect(Value(), out, status) == DispatchAll(limits, old(Value()), now, s, roomy)
      ensures signals == SignalsAll(limits, old(Value()), now, s, roomy)
    {
      ghost var goal := DispatchAll(limits, Value(), now, s, roomy);
      ghost var all := SignalsAll(limits, Value(), now, s, roomy);
      out, status, signals := [], Ok, [];
      var rest := s;
      while rest != []
        invariant Valid() && status == Ok
        invariant goal == Prepend(out, DispatchAll(limits, Value(), now, rest, roomy))
        invariant all == signals + SignalsAll(limits, Value(), now, rest, roomy)
        decreases |rest|
      {
        var read := ReadMessage(rest);
        if read.Failure? { return out, Err(read.error), signals; }
        var (m, more) := read.value;
        var delivered: seq<Delivery>, raised: seq<Signal>;
        ghost var before := Value();
        delivered, status, raised := DispatchFrame(now, m, roomy);
        DispatchStep(limits, before, now, rest, roomy, out, Effect(Value(), delivered, status), m, more);
        SignalsStep(limits, before, now, rest, roomy, Effect(Value(), delivered, status), m, more);
        SignalsJoin(signals, raised, if status.Err? then [] else SignalsAll(limits, Value(), now, more, roomy));
        out, signals, rest := out + delivered, signals + raised, more;
        if status.Err? { return; }
      }
    }

    method ReceivePacket(now: nat, sequence: nat, s: seq<byte>, roomy: bool)
      returns (out: seq<Delivery>, status: Status, signals: seq<Signal>)
      requires Valid()
      modifies packetWindow, reliableWindow, orderedWindow, ordered, sequenced, reassembler
      ensures Valid() && Effect(Value(), out, status) == Receive(limits, old(Value()), now, sequence, s, roomy)
      ensures signals == ReceivedSignals(limits, old(Value()), now, sequence, s, roomy)
    {
      if sequence == 0 { return [], Err(ProtocolError), []; }
      var unseen := packetWindow.Accept(sequence);
      if !unseen { return [], Ok, []; }
      out, status, signals := DispatchPayload(now, s, roomy);
    }
  }

}
