// What the receiver makes of any frame at all, honest or not: which ones fail the connection, and which fragments are
// turned away.
module Refusals {
  import opened Config
  import opened Codec
  import opened Fragments
  import opened Windows
  import opened Inbound
  import R = Reassembly

  // ------------------------------------------------------------------------ fragments

  predicate Oversized(cfg: FragmentationConfig, f: Fragment) {
    f.count > cfg.maxFragmentsPerMessage || f.length > cfg.maxReassembledMessageBytes
  }

  // The fragment tells something else of its message than the fragments before it.
  predicate Contradicts(e: R.Entry, f: Fragment) {
    || f.deliverySequence != e.deliverySequence || f.channel != e.channel || f.kind != e.kind
    || f.count != e.count || f.length != e.length
  }

  predicate NoRoom(cfg: FragmentationConfig, st: R.State, f: Fragment) {
    |st.entries| >= cfg.maxConcurrentReassemblies || st.memory + f.length > cfg.maxReassemblyMemory
  }

  // It is the last one missing.
  ghost predicate Finishes(st: R.State, f: Fragment) {
    if f.messageId in st.entries then
      var received := st.entries[f.messageId].received;
      f.index < |received| && !received[f.index] && forall k | 0 <= k < |received| && k != f.index :: received[k]
    else f.count == 1
  }

  lemma AllButOne(flags: seq<bool>, i: nat)
    requires i < |flags| && !flags[i]
    ensures R.Trues(flags) + 1 == |flags| <==> forall k | 0 <= k < |flags| && k != i :: flags[k]
  {
    var full := flags[i := true];
    R.TruesUpdate(flags, i);
    R.TruesAll(full);
    assert (forall k | 0 <= k < |full| :: full[k]) <==> (forall k | 0 <= k < |flags| && k != i :: flags[k]);
  }

  // The verdict on a fragment for a known message.
  lemma KnownVerdict(st: R.State, now: nat, f: Fragment, deliver: R.Whole -> bool)
    requires R.Consistent(st) && Writable(f) && f.messageId in st.entries
    ensures var e, (st', outcome) := st.entries[f.messageId], R.Store(st, f, now, deliver);
      && (outcome == R.Rejected(BadPacket) <==> Contradicts(e, f))
      && (outcome.Rejected? ==> outcome.error == BadPacket && st' == st)
      && (outcome.Duplicate? <==> !Contradicts(e, f) && e.received[f.index])
      && (outcome.Completed? || outcome.Refused? <==> !Contradicts(e, f) && Finishes(st, f))
      && (outcome.Refused? ==> !deliver(outcome.message)) && (outcome.Completed? ==> deliver(outcome.message))
      && (outcome.Completed? || outcome.Refused? ==>
            outcome.message.channel == f.channel && outcome.message.deliverySequence == f.deliverySequence)
  {
    var e := st.entries[f.messageId];
    assert R.WellFormed(e);
    if !Contradicts(e, f) {
      Layout(f.length, f.index);
      if !e.received[f.index] { AllButOne(e.received, f.index); }
    }
  }

  // ... and on the first one of a message there is room for.
  lemma FirstVerdict(st: R.State, now: nat, f: Fragment, deliver: R.Whole -> bool)
    requires R.Consistent(st) && Writable(f) && f.messageId !in st.entries
    ensures var outcome := R.Store(R.Open(st, f, now), f, now, deliver).1;
      && !outcome.Rejected? && !outcome.Duplicate?
      && (outcome.Completed? || outcome.Refused? <==> f.count == 1)
      && (outcome.Refused? ==> !deliver(outcome.message)) && (outcome.Completed? ==> deliver(outcome.message))
      && (outcome.Completed? || outcome.Refused? ==>
            outcome.message.channel == f.channel && outcome.message.deliverySequence == f.deliverySequence)
  {
    KnownVerdict(R.Open(st, f, now), now, f, deliver);
    if f.count > 1 {
      var received := R.Open(st, f, now).entries[f.messageId].received;
      assert !received[if f.index == 0 then 1 else 0];
    }
  }

  // accept(): every fragment the codec reads is turned away for exactly one reason, and then changes nothing.
  lemma RejectedIff(cfg: FragmentationConfig, st: R.State, now: nat, f: Fragment, deliver: R.Whole -> bool)
    requires R.Consistent(st) && Writable(f)
    ensures var (st', outcome) := R.AcceptFragment(cfg, st, now, f, deliver);
      var known := f.messageId in st.entries;
      && (outcome == R.Rejected(StateError) <==> !cfg.enabled)
      && (outcome == R.Rejected(TooLarge) <==> cfg.enabled && Oversized(cfg, f))
      && (outcome == R.Rejected(BadPacket) <==>
            cfg.enabled && !Oversized(cfg, f) && known && Contradicts(st.entries[f.messageId], f))
      && (outcome == R.Rejected(QueueFull) <==>
            cfg.enabled && !Oversized(cfg, f) && !known && NoRoom(cfg, st, f))
      && (outcome.Rejected? ==> st' == st)
  {
    if f.messageId in st.entries {
      KnownVerdict(st, now, f, deliver);
    } else {
      FirstVerdict(st, now, f, deliver);
    }
  }

  // The fragment completes a message of the ordered channel without a number.
  ghost predicate Numberless(st: R.State, f: Fragment) {
    Finishes(st, f) && f.channel.ReliableOrdered? && f.deliverySequence == 0
  }

  // A fragment fails the connection: fragmentation is off, it contradicts its message, or it completes one without a
  // number. Neither size nor room does.
  ghost predicate Fatal(limits: Limits, r: Receiver, f: Fragment, roomy: bool) {
    var cfg, st := limits.fragmentation, r.reassembly;
    if f.messageId in st.entries then
      || !cfg.enabled
      || (!Oversized(cfg, f) && (Contradicts(st.entries[f.messageId], f) || Numberless(st, f)))
    else roomy && (!cfg.enabled || (!Oversized(cfg, f) && !NoRoom(cfg, st, f) && Numberless(st, f)))
  }

  lemma KnownFailsIff(limits: Limits, r: Receiver, now: nat, f: Fragment, roomy: bool)
    requires R.Consistent(r.reassembly) && Writable(f) && f.messageId in r.reassembly.entries
    ensures HandleFragment(limits, r, now, f, roomy).status.Err? <==> Fatal(limits, r, f, roomy)
  {
    RejectedIff(limits.fragmentation, r.reassembly, now, f, Deliverable());
    KnownVerdict(r.reassembly, now, f, Deliverable());
  }

  lemma FragmentFailsIff(limits: Limits, r: Receiver, now: nat, f: Fragment, roomy: bool)
    requires R.Consistent(r.reassembly) && Writable(f)
    ensures HandleFragment(limits, r, now, f, roomy).status.Err? <==> Fatal(limits, r, f, roomy)
  {
    if f.messageId in r.reassembly.entries {
      KnownFailsIff(limits, r, now, f, roomy);
    } else {
      RejectedIff(limits.fragmentation, r.reassembly, now, f, Deliverable());
      FirstVerdict(r.reassembly, now, f, Deliverable());
    }
  }

  // --------------------------------------------------------------------------- frames

  lemma ReadWritable(s: seq<byte>)
    requires ReadFragment(s).Success?
    ensures Writable(ReadFragment(s).value)
  {
    FragmentRoundTrip(s, ReadFragment(s).value);
  }

  // The bytes acknowledge some id on a reliable channel.
  ghost predicate IsAck(s: seq<byte>) {
    exists channel: Channel, id: nat :: channel.IsReliable() && 0 < id < U64_LIMIT && s == EncodeAck(channel, id)
  }

  // The body of a reliable message fails the connection.
  ghost predicate FatalBody(limits: Limits, r: Receiver, channel: Channel, kind: byte, data: seq<byte>, roomy: bool) {
    if kind == CONTROL_FRAGMENT && ReadFragment(data).Success? then Fatal(limits, r, ReadFragment(data).value, roomy)
    else channel.ReliableOrdered? && ReadNumbered(data).Failure?
  }

  lemma BodyFailsIff(limits: Limits, r: Receiver, now: nat, channel: Channel, kind: byte, data: seq<byte>, roomy: bool)
    requires R.Consistent(r.reassembly) && channel.IsReliable()
    ensures HandleReliable(limits, r, now, channel, kind, data, roomy).status.Err? <==>
      FatalBody(limits, r, channel, kind, data, roomy)
  {
    if ReadFragment(data).Success? {
      ReadWritable(data);
      FragmentFailsIff(limits, r, now, ReadFragment(data).value, roomy);
    }
    if ReadNumbered(data).Success? { EncodeOfReadNumbered(data); }
  }

  // dispatch_message_frame, for every frame there is: it fails the connection exactly when it cannot be read as what it
  // says it is, is of no known kind, or carries a fatal fragment. A reliable frame seen before never does.
  lemma FrameFailsIff(limits: Limits, r: Receiver, now: nat, m: Message, roomy: bool)
    requires R.Consistent(r.reassembly)
    ensures Dispatch(limits, r, now, m, roomy).status.Err? <==>
      match m.channel
      case Unreliable => false
      case SequencedUnreliable => ReadNumbered(m.data).Failure?
      case Control =>
        if m.kind == CONTROL_ACK then !IsAck(m.data)
        else if m.kind == CONTROL_FRAGMENT then
          ReadFragment(m.data).Failure? || Fatal(limits, r, ReadFragment(m.data).value, roomy)
        else true
      case _ =>
        || ReadNumbered(m.data).Failure?
        || (Slide(IdsOf(r, m.channel), ReadNumbered(m.data).value.0).1 &&
            FatalBody(limits, r, m.channel, m.kind, ReadNumbered(m.data).value.1, roomy))
  {
    match m.channel
    case Unreliable =>
    case SequencedUnreliable =>
    case Control => ControlFailsIff(limits, r, now, m, roomy);
    case _ =>
      if ReadNumbered(m.data).Success? {
        var (id, data) := ReadNumbered(m.data).value;
        var r1 := WithIds(r, m.channel, Slide(IdsOf(r, m.channel), id).0);
        BodyFailsIff(limits, r1, now, m.channel, m.kind, data, roomy);
        assert r1.reassembly == r.reassembly;
      }
  }

  lemma ControlFailsIff(limits: Limits, r: Receiver, now: nat, m: Message, roomy: bool)
    requires R.Consistent(r.reassembly) && m.channel.Control?
    ensures Dispatch(limits, r, now, m, roomy).status.Err? <==>
      if m.kind == CONTROL_ACK then !IsAck(m.data)
      else if m.kind == CONTROL_FRAGMENT then
        ReadFragment(m.data).Failure? || Fatal(limits, r, ReadFragment(m.data).value, roomy)
      else true
  {
    if m.kind == CONTROL_ACK {
      if ReadAck(m.data).Success? {
        var (channel, id) := ReadAck(m.data).value;
        AckInRange(m.data);
        AckRoundTrip(m.data, channel, id);
      }
      forall channel: Channel, id: nat | channel.IsReliable() && 0 < id < U64_LIMIT && m.data == EncodeAck(channel, id)
        ensures ReadAck(m.data).Success?
      {
        AckRoundTrip(m.data, channel, id);
      }
    } else if ReadFragment(m.data).Success? {
      ReadWritable(m.data);
      FragmentFailsIff(limits, r, now, ReadFragment(m.data).value, roomy);
    }
  }

  // A packet without a number fails the connection; one seen before does nothing at all.
  lemma ReplayDoesNothing(limits: Limits, r: Receiver, now: nat, sequence: nat, s: seq<byte>, roomy: bool)
    requires R.Consistent(r.reassembly) && (sequence == 0 || !Slide(r.packets, sequence).1)
    ensures var e := Receive(limits, r, now, sequence, s, roomy);
      && e.out == [] && ReceivedSignals(limits, r, now, sequence, s, roomy) == []
      && e.status == (if sequence == 0 then Err(ProtocolError) else Ok) && e.r.(packets := r.packets) == r
  {
  }
}
