// When the ordered log stops: a unit of an ordered message that is never sent, or that comes and is not kept.
module Stalls {
  import opened Config
  import opened Codec
  import opened Windows
  import opened Outbound
  import opened Inbound
  import opened Landing
  import opened Losses
  import opened Keeping
  import opened Transport
  import R = Reassembly
  import O = Ordered

  // ----------------------------------------------------------------------- never sent

  lemma SendMessageGone(s: Sender, channel: Channel, kind: byte, payload: seq<byte>, env: Env, u: Unit)
    requires SenderOk(s) && Gone(s, u) && u.send < |s.sends|
    ensures var s' := Send(s, channel, kind, payload, env).0;
      Gone(s', u) && u.send < |s'.sends| && s'.sends[u.send] == s.sends[u.send]
  {
    SendGone(s, channel, kind, payload, env, u);
    SendKeepsAll(s, channel, kind, payload, env);
  }

  lemma ResendGone(s: Sender, channel: Channel, now: nat, queued: nat -> bool, u: Unit)
    requires SenderOk(s) && Gone(s, u) && channel.IsReliable()
    ensures var s' := Pump(s, channel, now, queued); Gone(s', u) && s'.sends == s.sends
  {
    PumpGone(s, channel, now, queued, u);
    PumpLinks(s, channel, now, queued);
  }

  lemma StepGone(s: Sender, step: Step, u: Unit)
    requires SenderReady(s) && Legal(s, step) && SenderOk(s) && Gone(s, u) && u.send < |s.sends|
    ensures var s' := Moved(s, step); Gone(s', u) && u.send < |s'.sends| && s'.sends[u.send] == s.sends[u.send]
  {
    match step
    case SendMessage(channel, kind, payload, env) => SendMessageGone(s, channel, kind, payload, env, u);
    case Resend(channel, now, queued) => ResendGone(s, channel, now, queued, u);
    case Acked(channel, id, now) => AckGone(s, channel, id, now, u);
    case SendAck(channel, id, room) =>
      QueueGone(s, Message(Control, CONTROL_ACK, EncodeAck(channel, id)), Receipt(channel, id), room, u);
    case SendBare(room) => BareGone(s, room, u);
    case Arrive(_, _, _) =>
    case Expire(_) =>
  }

  lemma BareGone(s: Sender, room: bool, u: Unit)
    requires Gone(s, u)
    ensures Gone(QueueBare(s, room), u)
  {
  }

  lemma PrefixIsRun(limits: Limits, states: seq<Link>, steps: seq<Step>, n: nat)
    requires IsRun(limits, states, steps) && n <= |steps|
    ensures IsRun(limits, states[..n + 1], steps[..n])
  {
  }

  lemma {:induction false} GoneStays(limits: Limits, states: seq<Link>, steps: seq<Step>, first: nat, last: nat,
                                     u: Unit)
    requires IsRun(limits, states, steps) && first <= last <= |steps|
    requires Gone(states[first].sender, u) && u.send < |states[first].sender.sends|
    ensures Gone(states[last].sender, u) && u.send < |states[last].sender.sends|
    ensures states[last].sender.sends[u.send] == states[first].sender.sends[u.send]
    decreases last - first
  {
    if first < last {
      var n := last - 1;
      GoneStays(limits, states, steps, first, n, u);
      PrefixIsRun(limits, states, steps, n);
      var b := InvariantHolds(limits, states[..n + 1], steps[..n]);
      assert Next(limits, states[n], steps[n], states[n + 1]);
      InvReady(limits, states[n], b);
      StepGone(states[n].sender, steps[n], u);
    }
  }

  // What is on no packet has not arrived.
  lemma GoneNotArrived(s: Sender, b: Book, u: Unit)
    requires AllSeen(s, b) && Gone(s, u)
    ensures u !in b.tally.arrived
  {
    forall n ensures !Came(s, b, n, u) {}
    assert !Seen(s, b, u);
  }

  lemma NotHeldStops(limits: Limits, k: Link, b: Book, rec: Record)
    requires Inv(limits, k, b) && !O.Held(k.receiver.ordered, rec.number)
    ensures |OrderedPart(k.log)| < rec.number
  {
  }

  lemma NotArrivedStops(limits: Limits, k: Link, b: Book, u: Unit)
    requires Inv(limits, k, b) && u.send < |k.sender.sends| && u.index < k.sender.sends[u.send].Units()
    requires k.sender.sends[u.send].channel.ReliableOrdered? && u !in b.tally.arrived
    ensures |OrderedPart(k.log)| < k.sender.sends[u.send].number
  {
    assert HeldArrived(k.sender.sends, k.receiver.ordered, b.tally);
    assert !AllArrived(k.sender.sends, b.tally.arrived, u.send);
    NotHeldStops(limits, k, b, k.sender.sends[u.send]);
  }

  // If a unit of ordered message n is on no packet and in no session, message n is never delivered, nor any after it.
  lemma GoneStops(limits: Limits, states: seq<Link>, steps: seq<Step>, first: nat, last: nat, u: Unit)
    requires IsRun(limits, states, steps) && first <= last <= |steps|
    requires Gone(states[first].sender, u) && UnitOk(states[first].sender, u)
    requires states[first].sender.sends[u.send].channel.ReliableOrdered?
    ensures |OrderedPart(states[last].log)| < states[first].sender.sends[u.send].number
  {
    GoneStays(limits, states, steps, first, last, u);
    PrefixIsRun(limits, states, steps, last);
    var b := InvariantHolds(limits, states[..last + 1], steps[..last]);
    var k := states[last];
    GoneNotArrived(k.sender, b, u);
    NotArrivedStops(limits, k, b, u);
  }

  // A send on the ordered channel that passes the guards and finds no room for some unit has spent its number:
  // the receiver's ordered log stays below it for good.
  lemma SpentNumberStops(limits: Limits, states: seq<Link>, steps: seq<Step>, first: nat, last: nat)
    requires IsRun(limits, states, steps) && first < last <= |steps|
    requires steps[first].SendMessage? && steps[first].channel.ReliableOrdered?
    requires Passes(states[first].sender.cfg, ReliableOrdered, steps[first].payload)
    requires var rec := RecordFor(states[first].sender, ReliableOrdered, steps[first].kind, steps[first].payload);
      rec.WellFormed() && !Affords(states[first].sender.ordered, rec, 0, steps[first].env.room)
    ensures |OrderedPart(states[last].log)| < states[first].sender.nextOrdered
  {
    var k, step := states[first], steps[first];
    PrefixIsRun(limits, states, steps, first);
    var b := InvariantHolds(limits, states[..first + 1], steps[..first]);
    InvReady(limits, k, b);
    assert Next(limits, states[first], steps[first], states[first + 1]);
    var rec := RecordFor(k.sender, ReliableOrdered, step.kind, step.payload);
    var goal := Send(k.sender, ReliableOrdered, step.kind, step.payload, step.env);
    OrderedSendFailsIff(k.sender, step.kind, step.payload, step.env, rec, goal);
    GoneStops(limits, states, steps, first + 1, last, Unit(|k.sender.sends|, rec.Units() - 1));
  }

  // ------------------------------------------------------------------ refused and not held

  // Over the rest of any run, what landed stays landed, what was missed stays missed and what is barred stays barred.
  lemma {:induction false} RunLasts(limits: Limits, states: seq<Link>, steps: seq<Step>, first: nat, last: nat, b: Book)
    returns (b': Book)
    requires IsRun(limits, states, steps) && first <= last <= |steps| && Inv(limits, states[first], b)
    ensures Inv(limits, states[last], b') && Lasts(states[first], b, states[last], b')
    decreases last - first
  {
    if first == last {
      b' := b;
      LastsAtOnce(states[first], b);
    } else {
      var n := last - 1;
      var before := RunLasts(limits, states, steps, first, n, b);
      assert Next(limits, states[n], steps[n], states[n + 1]);
      b' := StepKeeps(limits, states[n], before, steps[n], states[last]);
      LastsOn(states[first], b, states[n], before, states[last], b');
    }
  }

  lemma LastsAtOnce(k: Link, b: Book)
    ensures Lasts(k, b, k, b)
  {
  }

  lemma LastsOn(k: Link, b: Book, k1: Link, b1: Book, k2: Link, b2: Book)
    requires Lasts(k, b, k1, b1) && Lasts(k1, b1, k2, b2)
    ensures Lasts(k, b, k2, b2)
  {
  }

  lemma MissedStops(limits: Limits, states: seq<Link>, steps: seq<Step>, first: nat, last: nat, b: Book, u: Unit)
    requires IsRun(limits, states, steps) && first <= last <= |steps| && Inv(limits, states[first], b)
    requires Missed(states[first].sender.sends, states[first].receiver, b.tally.arrived, u)
    ensures |OrderedPart(states[last].log)| < states[first].sender.sends[u.send].number
  {
    var b' := RunLasts(limits, states, steps, first, last, b);
    NotHeldStops(limits, states[last], b', states[last].sender.sends[u.send]);
  }

  lemma BarredStops(limits: Limits, states: seq<Link>, steps: seq<Step>, first: nat, last: nat, b: Book, id: nat,
                    u: Unit)
    requires IsRun(limits, states, steps) && first <= last <= |steps| && Inv(limits, states[first], b)
    requires Barred(states[first].sender, b, ReliableOrdered, id, u) && UnitOk(states[first].sender, u)
    requires states[first].sender.sends[u.send].channel.ReliableOrdered?
    ensures |OrderedPart(states[last].log)| < states[first].sender.sends[u.send].number
  {
    var b' := RunLasts(limits, states, steps, first, last, b);
    assert Barred(states[last].sender, b', ReliableOrdered, id, u);
    NotArrivedStops(limits, states[last], b', u);
  }

  // In every run: once the ordered id window refuses the id of a unit that the receiver does not hold, whether the unit
  // was turned away, dropped or left behind, its message is never delivered, nor any after it.
  lemma RefusedStops(limits: Limits, states: seq<Link>, steps: seq<Step>, first: nat, last: nat, id: nat, u: Unit)
    requires IsRun(limits, states, steps) && first <= last <= |steps|
    requires IsFor(states[first].sender, ReliableOrdered, id, u) && UnitOk(states[first].sender, u)
    requires !Slide(states[first].receiver.orderedIds, id).1
    requires !Holds(states[first].receiver, states[first].sender.sends[u.send], u.index)
    ensures |OrderedPart(states[last].log)| < states[first].sender.sends[u.send].number
  {
    PrefixIsRun(limits, states, steps, first);
    var b := InvariantHolds(limits, states[..first + 1], steps[..first]);
    var k := states[first];
    assert IssueOk(k.sender, ReliableOrdered, id);
    SlideRefinesSet(k.receiver.orderedIds, b.orderedIds, id);
    if u in b.tally.arrived {
      MissedStops(limits, states, steps, first, last, b, u);
    } else {
      BarredStops(limits, states, steps, first, last, b, id, u);
    }
  }

  // Left behind: an id 64 or more past it was accepted.
  lemma LeftBehindStops(limits: Limits, states: seq<Link>, steps: seq<Step>, first: nat, last: nat, id: nat, u: Unit)
    requires IsRun(limits, states, steps) && first <= last <= |steps|
    requires IsFor(states[first].sender, ReliableOrdered, id, u) && UnitOk(states[first].sender, u)
    requires states[first].receiver.orderedIds.initialized
    requires id + WINDOW_BITS <= states[first].receiver.orderedIds.latest
    requires !Holds(states[first].receiver, states[first].sender.sends[u.send], u.index)
    ensures |OrderedPart(states[last].log)| < states[first].sender.sends[u.send].number
  {
    RefusedStops(limits, states, steps, first, last, id, u);
  }

  // ----------------------------------------------------------------------------- dropped

  // What the receiver holds has landed.
  lemma HeldHasLanded(limits: Limits, k: Link, b: Book, u: Unit)
    requires Inv(limits, k, b) && UnitOk(k.sender, u) && Holds(k.receiver, k.sender.sends[u.send], u.index)
    ensures u in b.tally.arrived
  {
    if u !in b.tally.arrived { NotHolding(k.sender.sends, k.receiver, k.log, b.tally, u.send, u.index); }
  }

  // In every run: a fragment of an ordered message that was held and no longer is, because its message expired or was
  // completed when the ordered buffer was full, stops the ordered log below that message for good.
  lemma DroppedStops(limits: Limits, states: seq<Link>, steps: seq<Step>, held: nat, first: nat, last: nat, u: Unit)
    requires IsRun(limits, states, steps) && held <= first <= last <= |steps|
    requires UnitOk(states[held].sender, u) && states[held].sender.sends[u.send].channel.ReliableOrdered?
    requires Holds(states[held].receiver, states[held].sender.sends[u.send], u.index)
    requires !Holds(states[first].receiver, states[held].sender.sends[u.send], u.index)
    ensures |OrderedPart(states[last].log)| < states[held].sender.sends[u.send].number
  {
    PrefixIsRun(limits, states, steps, held);
    var b := InvariantHolds(limits, states[..held + 1], steps[..held]);
    HeldHasLanded(limits, states[held], b, u);
    var b1 := RunLasts(limits, states, steps, held, first, b);
    MissedStops(limits, states, steps, first, last, b1, u);
  }

  // ------------------------------------------------------------------------- turned away

  // Packet n carries unit u of an ordered message under this id.
  ghost predicate Brings(k: Link, n: nat, id: nat, u: Unit) {
    && n in k.sender.wire && k.sender.wire[n].tag == Tracked(ReliableOrdered, id)
    && IsFor(k.sender, ReliableOrdered, id, u) && UnitOk(k.sender, u)
  }

  // The receiver past both windows.
  function Past(r: Receiver, n: nat, id: nat): Receiver {
    r.(packets := Slide(r.packets, n).0, orderedIds := Slide(r.orderedIds, id).0)
  }

  lemma BroughtEffect(limits: Limits, r: Receiver, now: nat, n: nat, rec: Record, i: nat, id: nat, roomy: bool)
    requires R.Consistent(r.reassembly) && rec.WellFormed() && NumbersFit(rec) && i < rec.Units() && 0 < n
    requires rec.channel.ReliableOrdered? && Unambiguous(rec) && 0 < id < U64_LIMIT && Slide(r.packets, n).1
    ensures Receive(limits, r, now, n, EncodeMessage(rec.TrackedFrame(i, id)), roomy) ==
      if Slide(r.orderedIds, id).1 then Land(limits, Past(r, n, id), now, rec, i, roomy)
      else Effect(Past(r, n, id), [], Ok)
  {
    var r1 := r.(packets := Slide(r.packets, n).0);
    TrackedEffect(limits, r1, now, rec, i, id, roomy);
    assert WithIds(r1, rec.channel, Slide(r1.orderedIds, id).0) == Past(r, n, id);
  }

  lemma PastLands(s: Sender, r: Receiver, log: seq<Delivery>, b: Book, n: nat, id: nat, u: Unit)
    requires SenderOk(s) && ReceiverOk(s, r, log, b) && IsFor(s, ReliableOrdered, id, u)
    requires Admits(b.orderedIds, id)
    ensures u !in b.tally.arrived && LandOk(s.sends, Past(r, n, id), log, b.tally)
  {
    FreshId(s, b, ReliableOrdered, id);
    assert DeliveryOk(s.sends, Past(r, n, id), log, b.tally);
  }

  lemma PastRoom(limits: Limits, r: Receiver, n: nat, id: nat, rec: Record, i: nat, roomy: bool)
    ensures Room(limits, Past(r, n, id), rec, i, roomy) == Room(limits, r, rec, i, roomy)
    ensures Holds(Past(r, n, id), rec, i) == Holds(r, rec, i)
  {
  }

  // A packet that the replay window lets through.
  lemma BroughtHeldIff(limits: Limits, s: Sender, r: Receiver, log: seq<Delivery>, b: Book, now: nat, n: nat, id: nat,
                       u: Unit, roomy: bool, e: Effect)
    requires SenderOk(s) && CountersFit(s) && ReceiverOk(s, r, log, b) && UnitOk(s, u)
    requires IsFor(s, ReliableOrdered, id, u) && s.sends[u.send].channel.ReliableOrdered?
    requires e == if Slide(r.orderedIds, id).1 then Land(limits, Past(r, n, id), now, s.sends[u.send], u.index, roomy)
      else Effect(Past(r, n, id), [], Ok)
    ensures Holds(e.r, s.sends[u.send], u.index) <==>
      || Holds(r, s.sends[u.send], u.index)
      || (Admits(b.orderedIds, id) && Room(limits, r, s.sends[u.send], u.index, roomy))
    ensures e.r.orderedIds == Slide(r.orderedIds, id).0
  {
    PastRoom(limits, r, n, id, s.sends[u.send], u.index, roomy);
    SlideRefinesSet(r.orderedIds, b.orderedIds, id);
    if Admits(b.orderedIds, id) {
      PastLands(s, r, log, b, n, id, u);
      NotHolding(s.sends, Past(r, n, id), log, b.tally, u.send, u.index);
      LandSameWindows(limits, Past(r, n, id), now, s.sends[u.send], u.index, roomy);
      UnitKeptIff(limits, s.sends, Past(r, n, id), log, b.tally, now, u.send, u.index, roomy);
    }
  }

  // In every reachable state and for any packet of an ordered unit: the receiver holds the unit afterwards if and only
  // if it did before, or both windows admit it and there is room. If the packet was let through, its id is refused from
  // then on.
  lemma HeldIffRoom(limits: Limits, k: Link, b: Book, step: Step, k': Link, id: nat, u: Unit)
    requires Inv(limits, k, b) && Next(limits, k, step, k') && step.Arrive? && Brings(k, step.sequence, id, u)
    ensures k'.sender == k.sender && k.sender.sends[u.send].channel.ReliableOrdered?
    ensures var rec := k.sender.sends[u.send];
      Holds(k'.receiver, rec, u.index) <==>
        || Holds(k.receiver, rec, u.index)
        || (Admits(b.packets, step.sequence) && Admits(b.orderedIds, id) &&
            Room(limits, k.receiver, rec, u.index, step.roomy))
    ensures Admits(b.packets, step.sequence) ==> !Slide(k'.receiver.orderedIds, id).1
  {
    InvReady(limits, k, b);
    var s, r, n := k.sender, k.receiver, step.sequence;
    assert ParcelOk(s, s.wire[n]) && IssueOk(s, ReliableOrdered, id);
    SlideRefinesSet(r.packets, b.packets, n);
    if Admits(b.packets, n) {
      NumbersFitAll(s, u.send);
      BroughtEffect(limits, r, step.now, n, s.sends[u.send], u.index, id, step.roomy);
      var e := Receive(limits, r, step.now, n, s.wire[n].bytes, step.roomy);
      BroughtHeldIff(limits, s, r, k.log, b, step.now, n, id, u, step.roomy, e);
      SlideTwice(r.orderedIds, b.orderedIds, id);
    }
  }

  // In every run: a unit of ordered message n that the replay window lets through, so that it is acknowledged, that is
  // not held yet, and whose id is refused or that finds no room, stops the ordered log below n for good.
  lemma TurnedAwayStops(limits: Limits, states: seq<Link>, steps: seq<Step>, first: nat, last: nat, id: nat, u: Unit)
    requires IsRun(limits, states, steps) && first < last <= |steps|
    requires steps[first].Arrive? && Brings(states[first], steps[first].sequence, id, u)
    requires var r, rec := states[first].receiver, states[first].sender.sends[u.send];
      && Slide(r.packets, steps[first].sequence).1 && !Holds(r, rec, u.index)
      && (!Slide(r.orderedIds, id).1 || !Room(limits, r, rec, u.index, steps[first].roomy))
    ensures |OrderedPart(states[last].log)| < states[first].sender.sends[u.send].number
  {
    PrefixIsRun(limits, states, steps, first);
    var b := InvariantHolds(limits, states[..first + 1], steps[..first]);
    var k := states[first];
    assert Next(limits, states[first], steps[first], states[first + 1]);
    SlideRefinesSet(k.receiver.packets, b.packets, steps[first].sequence);
    SlideRefinesSet(k.receiver.orderedIds, b.orderedIds, id);
    HeldIffRoom(limits, k, b, steps[first], states[first + 1], id, u);
    RefusedStops(limits, states, steps, first + 1, last, id, u);
  }
}
