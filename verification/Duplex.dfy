// Both directions of an established connection: two endpoints, each with a sender and a receiver, and the
// acknowledgements that pass between them.
module Duplex {
  import opened Config
  import opened Codec
  import opened Windows
  import opened Outbound
  import opened Inbound
  import R = Reassembly
  import S = Session
  import T = Transport
  import K = Keeping

  type Key = (Channel, nat)

  // `owed` and `heard` are history: the ids this endpoint was asked to acknowledge, and those it took as acknowledged.
  datatype End = End(limits: Limits, sender: Sender, receiver: Receiver, log: seq<Delivery>, failed: bool,
                     owed: set<Key>, heard: set<Key>)

  datatype Pair = Pair(a: End, b: End) {
    function Of(first: bool): End { if first then a else b }

    function With(first: bool, x: End): Pair { if first then this.(a := x) else this.(b := x) }

    // One direction of the connection.
    function Link(first: bool): T.Link {
      T.Link(Of(first).sender, Of(!first).receiver, Of(!first).log, Of(!first).failed)
    }
  }

  datatype Step =
    | Act(first: bool, act: T.Step)
    // any packet the other endpoint ever built arrives, any number of times
    | Take(first: bool, sequence: nat, now: nat, roomy: bool, room: nat -> bool)

  // What an endpoint does of its own accord; acknowledgements are sent and taken only in answer to packets.
  ghost predicate Own(act: T.Step) { act.SendMessage? || act.Resend? || act.SendBare? || act.Expire? }

  ghost function Answer(signal: Signal, now: nat, room: bool): T.Step {
    match signal
    case Acknowledge(channel, id) => T.SendAck(channel, id, room)
    case Heard(channel, id) => T.Acked(channel, id, now)
  }

  lemma AnswerReady(s: Sender, signal: Signal, now: nat, room: bool)
    requires T.SenderReady(s) && Proper(signal)
    ensures T.SenderReady(T.Moved(s, Answer(signal, now, room)))
  {
    if signal.Heard? { HeardReady(s, signal.channel, signal.id, now); }
  }

  lemma HeardReady(s: Sender, channel: Channel, id: nat, now: nat)
    requires T.SenderReady(s) && channel.IsReliable()
    ensures T.SenderReady(s.With(channel, S.AcknowledgeMessage(s.Session(channel), id, now).0))
  {
    S.AcknowledgeKeepsValid(s.Session(channel), id, now);
    WithValid(s, channel, S.AcknowledgeMessage(s.Session(channel), id, now).0);
  }

  // The sending side answers the signals of a packet in turn; `room` says for each whether its packet finds room.
  ghost function Respond(s: Sender, signals: seq<Signal>, now: nat, room: nat -> bool): (s': Sender)
    requires T.SenderReady(s) && forall signal | signal in signals :: Proper(signal)
    ensures T.SenderReady(s')
  {
    if signals == [] then s
    else
      var n := |signals| - 1;
      var before := Respond(s, signals[..n], now, room);
      AnswerReady(before, signals[n], now, room(n));
      T.Moved(before, Answer(signals[n], now, room(n)))
  }

  ghost function Asked(signals: seq<Signal>): set<Key> {
    set signal | signal in signals && signal.Acknowledge? :: (signal.channel, signal.id)
  }

  ghost function Told(signals: seq<Signal>): set<Key> {
    set signal | signal in signals && signal.Heard? :: (signal.channel, signal.id)
  }

  ghost predicate EndReady(x: End) { T.SenderReady(x.sender) && R.Consistent(x.receiver.reassembly) }

  ghost function Acting(x: End, act: T.Step): End
    requires EndReady(x) && Own(act) && T.Legal(x.sender, act)
  {
    if act.Expire? then x.(receiver := ExpireReassembly(x.limits, x.receiver, act.now))
    else x.(sender := T.Moved(x.sender, act))
  }

  ghost function Taking(x: End, bytes: seq<byte>, sequence: nat, now: nat, roomy: bool, room: nat -> bool): End
    requires EndReady(x)
  {
    var e := Receive(x.limits, x.receiver, now, sequence, bytes, roomy);
    var signals := ReceivedSignals(x.limits, x.receiver, now, sequence, bytes, roomy);
    AllSignalsProper(x.limits, x.receiver.(packets := Slide(x.receiver.packets, sequence).0), now, bytes, roomy);
    x.(receiver := e.r, log := x.log + e.out, failed := x.failed || e.status.Err?,
       sender := Respond(x.sender, signals, now, room),
       owed := x.owed + Asked(signals), heard := x.heard + Told(signals))
  }

  ghost predicate Legal(p: Pair, step: Step) {
    match step
    case Act(first, act) => Own(act) && T.Legal(p.Of(first).sender, act)
    case Take(first, sequence, _, _, _) => sequence in p.Of(!first).sender.wire
  }

  ghost predicate Ready(p: Pair) { EndReady(p.a) && EndReady(p.b) }

  ghost function Apply(p: Pair, step: Step): Pair
    requires Ready(p) && Legal(p, step)
  {
    match step
    case Act(first, act) => p.With(first, Acting(p.Of(first), act))
    case Take(first, sequence, now, roomy, room) =>
      var bytes := p.Of(!first).sender.wire[sequence].bytes;
      p.With(first, Taking(p.Of(first), bytes, sequence, now, roomy, room))
  }

  ghost predicate Start(p: Pair) {
    && T.Start(p.Link(true)) && T.Start(p.Link(false))
    && p.a.owed == p.b.owed == p.a.heard == p.b.heard == {}
  }

  ghost predicate Next(p: Pair, step: Step, p': Pair) {
    && T.CountersFit(p.a.sender) && T.CountersFit(p.b.sender) && Legal(p, step)
    && (Ready(p) ==> p' == Apply(p, step))
  }

  ghost predicate IsRun(states: seq<Pair>, steps: seq<Step>) {
    && |states| == |steps| + 1 && Start(states[0])
    && forall i | 0 <= i < |steps| :: Next(states[i], steps[i], states[i + 1])
  }

  // ------------------------------------------------------------ the signals of honest packets

  ghost function SignalsFor(tag: Tag): seq<Signal> {
    match tag
    case Tracked(channel, id) => [Acknowledge(channel, id)]
    case Receipt(channel, id) => [Heard(channel, id)]
    case _ => []
  }

  // A packet asks for the acknowledgement of the id it carries, or acknowledges the id it was built for.
  lemma ParcelSignals(limits: Limits, s: Sender, parcel: Parcel, r: Receiver, now: nat, roomy: bool)
    requires R.Consistent(r.reassembly) && ParcelOk(s, parcel) && T.CountersFit(s)
    ensures SignalsAll(limits, r, now, parcel.bytes, roomy) == SignalsFor(parcel.tag)
  {
    match parcel.tag
    case Free(u) =>
      UnitFits(s.sends[u.send], u.index, 0);
      OneFrameSignals(limits, r, now, s.sends[u.send].FreeFrame(u.index), roomy);
      FreeSignals(s.sends[u.send], u.index);
    case Tracked(channel, id) =>
      var u := s.issued[(channel, id)];
      UnitFits(s.sends[u.send], u.index, id);
      OneFrameSignals(limits, r, now, s.sends[u.send].TrackedFrame(u.index, id), roomy);
      K.AlwaysAcknowledged(s.sends[u.send], u.index, id);
    case Receipt(channel, id) =>
      var m := Message(Control, CONTROL_ACK, EncodeAck(channel, id));
      AckWidths();
      AckRoundTrip(m.data, channel, id);
      OneFrameSignals(limits, r, now, m, roomy);
    case Bare =>
  }

  lemma FreeSignals(rec: Record, i: nat)
    requires rec.WellFormed() && i < rec.Units() && !rec.channel.IsReliable()
    ensures SignalsOf(rec.FreeFrame(i)) == []
  {
  }

  // The endpoint that takes an honest packet, with the signal it gives.
  lemma TakingIs(x: End, peer: Sender, sequence: nat, now: nat, roomy: bool, room: nat -> bool)
    requires EndReady(x) && sequence in peer.wire && ParcelOk(peer, peer.wire[sequence]) && T.CountersFit(peer)
    requires sequence > 0
    ensures var bytes := peer.wire[sequence].bytes;
      ReceivedSignals(x.limits, x.receiver, now, sequence, bytes, roomy) ==
      if Slide(x.receiver.packets, sequence).1 then SignalsFor(peer.wire[sequence].tag) else []
  {
    var r := x.receiver.(packets := Slide(x.receiver.packets, sequence).0);
    ParcelSignals(x.limits, peer, peer.wire[sequence], r, now, roomy);
  }

  // ------------------------------------------------- each direction is a run of the transport

  lemma Extended(limits: Limits, states: seq<T.Link>, acts: seq<T.Step>, act: T.Step, k: T.Link)
    requires T.IsRun(limits, states, acts) && T.Next(limits, states[|acts|], act, k)
    ensures T.IsRun(limits, states + [k], acts + [act])
  {
    var states', acts' := states + [k], acts + [act];
    forall i | 0 <= i < |acts'| ensures T.Next(limits, states'[i], acts'[i], states'[i + 1]) {
      if i < |acts| { assert T.Next(limits, states[i], acts[i], states[i + 1]); }
    }
  }

  // The signals of the packet an endpoint takes.
  ghost function Given(p: Pair, step: Step): seq<Signal>
    requires Ready(p) && Legal(p, step) && step.Take?
  {
    var x, bytes := p.Of(step.first), p.Of(!step.first).sender.wire[step.sequence].bytes;
    ReceivedSignals(x.limits, x.receiver, step.now, step.sequence, bytes, step.roomy)
  }

  // The transport step that a step of the pair is for the direction from endpoint `first`, if any.
  ghost function Share(p: Pair, step: Step, first: bool): Option<T.Step>
    requires Ready(p) && Legal(p, step)
  {
    match step
    case Act(who, act) => if (who == first) == act.Expire? then None else Some(act)
    case Take(who, sequence, now, roomy, room) =>
      if who != first then Some(T.Arrive(sequence, now, roomy))
      else
        var signals := Given(p, step);
        if signals == [] then None else Some(Answer(signals[0], now, room(0)))
  }

  lemma RespondOne(s: Sender, signal: Signal, now: nat, room: nat -> bool)
    requires T.SenderReady(s) && Proper(signal)
    ensures Respond(s, [signal], now, room) == T.Moved(s, Answer(signal, now, room(0)))
  {
    assert [signal][..0] == [];
  }

  lemma ActShares(p: Pair, step: Step, first: bool)
    requires Ready(p) && Legal(p, step) && step.Act?
    ensures var k, share := p.Link(first), Share(p, step, first);
      && (share.Some? ==> T.Ready(k) && T.Legal(k.sender, share.value))
      && Apply(p, step).Link(first) ==
         if share.None? then k else T.Apply(p.Of(!first).limits, k, share.value)
  {
  }

  lemma ArrivalLink(x: End, s: Sender, n: nat, now: nat, roomy: bool, room: nat -> bool)
    requires EndReady(x) && T.SenderReady(s) && n in s.wire
    ensures var x' := Taking(x, s.wire[n].bytes, n, now, roomy, room);
      T.Link(s, x'.receiver, x'.log, x'.failed) ==
      T.Apply(x.limits, T.Link(s, x.receiver, x.log, x.failed), T.Arrive(n, now, roomy))
  {
  }

  // The packet is for the other direction: it arrives there.
  lemma ArrivalShares(p: Pair, step: Step)
    requires Ready(p) && Legal(p, step) && step.Take?
    ensures var k := p.Link(!step.first);
      T.Ready(k) && T.Legal(k.sender, T.Arrive(step.sequence, step.now, step.roomy)) &&
      Apply(p, step).Link(!step.first) ==
      T.Apply(p.Of(step.first).limits, k, T.Arrive(step.sequence, step.now, step.roomy))
  {
    ArrivalLink(p.Of(step.first), p.Of(!step.first).sender, step.sequence, step.now, step.roomy, step.room);
  }

  lemma GivenProper(p: Pair, step: Step)
    requires Ready(p) && Legal(p, step) && step.Take?
    ensures forall signal | signal in Given(p, step) :: Proper(signal)
  {
    var x, bytes := p.Of(step.first), p.Of(!step.first).sender.wire[step.sequence].bytes;
    var r := x.receiver.(packets := Slide(x.receiver.packets, step.sequence).0);
    AllSignalsProper(x.limits, r, step.now, bytes, step.roomy);
  }

  // In the direction from the endpoint that takes it, the sender answers its signals.
  lemma TakenLink(p: Pair, step: Step)
    requires Ready(p) && Legal(p, step) && step.Take?
    ensures forall signal | signal in Given(p, step) :: Proper(signal)
    ensures var k := p.Link(step.first);
      Apply(p, step).Link(step.first) == k.(sender := Respond(k.sender, Given(p, step), step.now, step.room))
  {
    GivenProper(p, step);
  }

  lemma AnswerShares(p: Pair, step: Step, signal: Signal)
    requires Ready(p) && Legal(p, step) && step.Take? && Given(p, step) == [signal]
    ensures var k, act := p.Link(step.first), Answer(signal, step.now, step.room(0));
      && T.Ready(k) && T.Legal(k.sender, act)
      && Apply(p, step).Link(step.first) == T.Apply(p.Of(!step.first).limits, k, act)
  {
    TakenLink(p, step);
    assert signal in Given(p, step);
    RespondOne(p.Of(step.first).sender, signal, step.now, step.room);
  }

  ghost predicate HonestWires(p: Pair) { T.SenderOk(p.a.sender) && T.SenderOk(p.b.sender) }

  lemma StepShares(p: Pair, step: Step, first: bool)
    requires Ready(p) && Legal(p, step) && HonestWires(p) && T.CountersFit(p.a.sender) && T.CountersFit(p.b.sender)
    ensures var k, share := p.Link(first), Share(p, step, first);
      && (share.Some? ==> T.Ready(k) && T.Legal(k.sender, share.value))
      && Apply(p, step).Link(first) ==
         if share.None? then k else T.Apply(p.Of(!first).limits, k, share.value)
  {
    if step.Act? {
      ActShares(p, step, first);
    } else {
      var peer := p.Of(!step.first).sender;
      assert WireOk(peer) && ParcelOk(peer, peer.wire[step.sequence]);
      TakingIs(p.Of(step.first), peer, step.sequence, step.now, step.roomy, step.room);
      if step.first != first {
        ArrivalShares(p, step);
      } else if Given(p, step) == [] {
        TakenLink(p, step);
      } else {
        AnswerShares(p, step, Given(p, step)[0]);
      }
    }
  }

  // The runs of the two directions so far.
  datatype Course = Course(states: seq<T.Link>, acts: seq<T.Step>)

  ghost predicate Follows(c: Course, p: Pair, first: bool) {
    T.IsRun(p.Of(!first).limits, c.states, c.acts) && c.states[|c.acts|] == p.Link(first)
  }

  lemma StepFollows(p: Pair, step: Step, p': Pair, first: bool, c: Course) returns (c': Course)
    requires Ready(p) && HonestWires(p) && Next(p, step, p') && Follows(c, p, first)
    ensures Follows(c', p', first)
  {
    StepShares(p, step, first);
    var share := Share(p, step, first);
    c' := c;
    if share.Some? {
      Extended(p.Of(!first).limits, c.states, c.acts, share.value, p'.Link(first));
      c' := Course(c.states + [p'.Link(first)], c.acts + [share.value]);
    }
  }

  lemma FollowsReady(p: Pair, ca: Course, cb: Course)
    requires Follows(ca, p, true) && Follows(cb, p, false)
    ensures Ready(p) && HonestWires(p)
  {
    var a := T.InvariantHolds(p.b.limits, ca.states, ca.acts);
    var b := T.InvariantHolds(p.a.limits, cb.states, cb.acts);
    T.InvReady(p.b.limits, p.Link(true), a);
    T.InvReady(p.a.limits, p.Link(false), b);
  }

  // In every run of the pair each direction is a run of the transport, so that what holds there of every run holds in
  // both directions at once, acknowledgements included.
  lemma {:induction false} DirectionsAreRuns(states: seq<Pair>, steps: seq<Step>) returns (ca: Course, cb: Course)
    requires IsRun(states, steps)
    ensures Follows(ca, states[|steps|], true) && Follows(cb, states[|steps|], false)
    ensures Ready(states[|steps|]) && HonestWires(states[|steps|])
    decreases |steps|
  {
    var n := |steps|;
    if n == 0 {
      ca, cb := Course([states[0].Link(true)], []), Course([states[0].Link(false)], []);
    } else {
      assert Next(states[n - 1], steps[n - 1], states[n]);
      ca, cb := DirectionsAreRuns(states[..n], steps[..n - 1]);
      ca := StepFollows(states[n - 1], steps[n - 1], states[n], true, ca);
      cb := StepFollows(states[n - 1], steps[n - 1], states[n], false, cb);
    }
    FollowsReady(states[n], ca, cb);
  }
}
