// What an acknowledgement means between two endpoints: what it takes out of a session, and what it says of the peer.
module Acks {
  import opened Config
  import opened Codec
  import opened Fragments
  import opened Windows
  import opened Outbound
  import opened Inbound
  import opened Landing
  import opened Duplex
  import R = Reassembly
  import S = Session
  import T = Transport
  import K = Keeping

  // -------------------------------------------------------------- only answers are receipts

  // No packet acknowledges anything that did not before.
  ghost predicate NoNewReceipts(s: Sender, s': Sender) {
    forall n | n in s'.wire && s'.wire[n].tag.Receipt? :: n in s.wire && s'.wire[n] == s.wire[n]
  }

  lemma PostReceipts(s: Sender, channel: Channel, session: S.State, p: S.Pending, u: Unit, later: nat, room: bool)
    requires S.Valid(session)
    ensures NoNewReceipts(s, Post(s, channel, session, p, u, later, room).0)
  {
  }

  lemma SendReliableReceipts(s: Sender, channel: Channel, kind: byte, data: seq<byte>, u: Unit, env: Env)
    requires S.Valid(s.Session(channel)) && |data| < U16_LIMIT
    ensures NoNewReceipts(s, SendReliable(s, channel, kind, data, u, env).0)
  {
    var now := env.clock(2 * u.index);
    S.EnqueueKeepsValid(s.Session(channel), kind, data, env.priority, env.lifetime, now);
    var (session, r) := S.EnqueueMessage(s.Session(channel), kind, data, env.priority, env.lifetime, now);
    if r.Success? { PostReceipts(s, channel, session, r.value, u, env.clock(2 * u.index + 1), env.room(u.index)); }
  }

  lemma SendUnitReceipts(s: Sender, rec: Record, i: nat, env: Env)
    requires SessionsValid(s) && s.sends != [] && rec.WellFormed() && i < rec.Units()
    ensures NoNewReceipts(s, SendUnit(s, rec, i, env).0)
  {
    UnitFits(rec, i, 0);
    if rec.channel.IsReliable() {
      SendReliableReceipts(s, rec.channel, rec.FrameKind(), rec.Body(i), Unit(|s.sends| - 1, i), env);
    }
  }

  lemma {:induction false} SendUnitsReceipts(s: Sender, rec: Record, i: nat, env: Env, s': Sender)
    requires SessionsValid(s) && s.sends != [] && rec.WellFormed() && i <= rec.Units()
    requires s' == SendUnits(s, rec, i, env).0
    ensures NoNewReceipts(s, s')
    decreases rec.Units() - i
  {
    if i < rec.Units() {
      SendUnitReceipts(s, rec, i, env);
      SendUnitKeeps(s, rec, i, env);
      var (s1, rc) := SendUnit(s, rec, i, env);
      if rc.Ok? { SendUnitsReceipts(s1, rec, i + 1, env, s'); }
    }
  }

  lemma {:induction false} RepostReceipts(s: Sender, channel: Channel, sent: seq<S.Pending>)
    ensures NoNewReceipts(s, Repost(s, channel, sent))
    decreases |sent|
  {
    if sent != [] {
      var s1 := QueueFrame(s, Message(channel, sent[0].kind, sent[0].encoded), Tracked(channel, sent[0].id), true).0;
      RepostReceipts(s1, channel, sent[1..]);
    }
  }

  lemma OwnReceipts(s: Sender, act: T.Step)
    requires T.SenderReady(s) && T.Legal(s, act) && Own(act)
    ensures NoNewReceipts(s, T.Moved(s, act))
  {
    match act
    case SendMessage(channel, kind, payload, env) =>
      if channel.IsApplication() && |payload| < U16_LIMIT {
        var rec := RecordFor(s, channel, kind, payload);
        SendUnitsReceipts(Begin(s, rec), rec, 0, env, SendUnits(Begin(s, rec), rec, 0, env).0);
      }
    case Resend(channel, now, queued) =>
      var session := S.ExpireOldMessages(s.Session(channel), now);
      var (session', sent, _) := S.ResendDueMessages(session, now, queued);
      RepostReceipts(s.With(channel, session'), channel, sent);
    case SendBare(_) =>
    case Expire(_) =>
  }

  // ---------------------------------------------------------------------- what was received

  // A packet with this id was taken by the receiver.
  ghost predicate Arrived(s: Sender, r: Receiver, key: Key, n: nat) {
    n in s.wire && s.wire[n].tag == Tracked(key.0, key.1) && !Slide(r.packets, n).1
  }

  // ... and its frame was dispatched: its id is refused from now on.
  ghost predicate Received(s: Sender, r: Receiver, key: Key) {
    && key.0.IsReliable() && !Slide(IdsOf(r, key.0), key.1).1
    && exists n :: Arrived(s, r, key, n)
  }

  // Every receipt among the packets is owed.
  ghost predicate OnlyOwed(s: Sender, owed: set<Key>) {
    forall n | n in s.wire && s.wire[n].tag.Receipt? :: (s.wire[n].tag.channel, s.wire[n].tag.id) in owed
  }

  // What y acknowledges of x's messages: it was received, its packets say what it owes, and x heard nothing else.
  ghost predicate Truthful(x: End, y: End) {
    && (forall key | key in y.owed :: Received(x.sender, y.receiver, key))
    && OnlyOwed(y.sender, y.owed)
    && x.heard <= y.owed
  }

  lemma RefusedLater(w: Window, ids: set<nat>, w': Window, more: set<nat>, id: nat)
    requires Represents(w, ids) && Represents(w', more) && ids <= more && !Slide(w, id).1
    ensures !Slide(w', id).1
  {
    SlideRefinesSet(w, ids, id);
    SlideRefinesSet(w', more, id);
    RefusedStays(ids, more, id);
  }

  // The frame of a packet.
  lemma ParcelFrame(s: Sender, parcel: Parcel) returns (m: Message)
    requires ParcelOk(s, parcel) && T.CountersFit(s) && !parcel.tag.Bare?
    ensures parcel.bytes == EncodeMessage(m) && |m.data| < U16_LIMIT
    ensures parcel.tag.Tracked? ==>
      && m.channel == parcel.tag.channel && m.channel.IsReliable()
      && ReadNumbered(m.data).Success? && ReadNumbered(m.data).value.0 == parcel.tag.id
  {
    match parcel.tag
    case Free(u) =>
      UnitFits(s.sends[u.send], u.index, 0);
      m := s.sends[u.send].FreeFrame(u.index);
    case Tracked(channel, id) =>
      var u := s.issued[(channel, id)];
      UnitFits(s.sends[u.send], u.index, id);
      K.FrameHasId(s.sends[u.send], u.index, id);
      m := s.sends[u.send].TrackedFrame(u.index, id);
    case Receipt(channel, id) =>
      AckWidths();
      m := Message(Control, CONTROL_ACK, EncodeAck(channel, id));
  }

  // An id refused before a packet is refused after it.
  lemma StaysRefused(limits: Limits, s: Sender, r: Receiver, now: nat, n: nat, roomy: bool, key: Key, ids: set<nat>)
    requires R.Consistent(r.reassembly) && n in s.wire && ParcelOk(s, s.wire[n]) && T.CountersFit(s)
    requires key.0.IsReliable() && Represents(IdsOf(r, key.0), ids) && !Slide(IdsOf(r, key.0), key.1).1
    ensures !Slide(IdsOf(Receive(limits, r, now, n, s.wire[n].bytes, roomy).r, key.0), key.1).1
  {
    if n > 0 && Slide(r.packets, n).1 && !s.wire[n].tag.Bare? {
      var r1 := r.(packets := Slide(r.packets, n).0);
      var m := ParcelFrame(s, s.wire[n]);
      OneFrame(limits, r1, now, m, roomy);
      var ids' := K.IdsGrow(limits, r1, K.Frame(m, now, roomy), key.0, ids);
      RefusedLater(IdsOf(r, key.0), ids, IdsOf(K.Taken(limits, r1, K.Frame(m, now, roomy)), key.0), ids', key.1);
    }
  }

  // The id of a packet that is taken is refused after it.
  lemma BecomesRefused(limits: Limits, s: Sender, r: Receiver, now: nat, n: nat, roomy: bool, ids: set<nat>)
    requires R.Consistent(r.reassembly) && n in s.wire && ParcelOk(s, s.wire[n]) && T.CountersFit(s)
    requires n > 0 && Slide(r.packets, n).1
    requires s.wire[n].tag.Tracked? && Represents(IdsOf(r, s.wire[n].tag.channel), ids)
    ensures var tag := s.wire[n].tag;
      !Slide(IdsOf(Receive(limits, r, now, n, s.wire[n].bytes, roomy).r, tag.channel), tag.id).1
  {
    var r1, tag := r.(packets := Slide(r.packets, n).0), s.wire[n].tag;
    var m := ParcelFrame(s, s.wire[n]);
    OneFrame(limits, r1, now, m, roomy);
    K.RefusedAfterwards(limits, r1, now, m, tag.id, roomy, ids);
    SlideRefinesSet(IdsOf(Dispatch(limits, r1, now, m, roomy).r, tag.channel), AcceptInto(ids, tag.id), tag.id);
  }

  lemma FragmentKeepsPackets(limits: Limits, r: Receiver, now: nat, f: Fragment, roomy: bool)
    requires R.Consistent(r.reassembly)
    ensures HandleFragment(limits, r, now, f, roomy).r.packets == r.packets
  {
  }

  lemma BodyKeepsPackets(limits: Limits, r: Receiver, now: nat, channel: Channel, kind: byte, data: seq<byte>,
                         roomy: bool)
    requires R.Consistent(r.reassembly)
    ensures HandleReliable(limits, r, now, channel, kind, data, roomy).r.packets == r.packets
  {
    if ReadFragment(data).Success? { FragmentKeepsPackets(limits, r, now, ReadFragment(data).value, roomy); }
  }

  lemma DispatchKeepsPackets(limits: Limits, r: Receiver, now: nat, m: Message, roomy: bool)
    requires R.Consistent(r.reassembly)
    ensures Dispatch(limits, r, now, m, roomy).r.packets == r.packets
  {
    if ReadFragment(m.data).Success? { FragmentKeepsPackets(limits, r, now, ReadFragment(m.data).value, roomy); }
    if m.channel.IsReliable() && ReadNumbered(m.data).Success? {
      var (id, data) := ReadNumbered(m.data).value;
      var r1 := WithIds(r, m.channel, Slide(IdsOf(r, m.channel), id).0);
      BodyKeepsPackets(limits, r1, now, m.channel, m.kind, data, roomy);
    }
  }

  lemma {:induction false} DispatchAllKeepsPackets(limits: Limits, r: Receiver, now: nat, s: seq<byte>, roomy: bool)
    requires R.Consistent(r.reassembly)
    ensures DispatchAll(limits, r, now, s, roomy).r.packets == r.packets
    decreases |s|
  {
    if s != [] && ReadMessage(s).Success? {
      var (m, rest) := ReadMessage(s).value;
      DispatchKeepsPackets(limits, r, now, m, roomy);
      DispatchConsistent(limits, r, now, m, roomy);
      DispatchAllKeepsPackets(limits, Dispatch(limits, r, now, m, roomy).r, now, rest, roomy);
    }
  }

  // A packet refused before another is refused after it, and so is the one that was taken.
  lemma PacketsRefused(limits: Limits, r: Receiver, now: nat, n: nat, bytes: seq<byte>, roomy: bool, packets: set<nat>,
                       k: nat)
    requires R.Consistent(r.reassembly) && Represents(r.packets, packets) && n > 0
    requires k == n || !Slide(r.packets, k).1
    ensures !Slide(Receive(limits, r, now, n, bytes, roomy).r.packets, k).1
  {
    var w := Slide(r.packets, n).0;
    DispatchAllKeepsPackets(limits, r.(packets := w), now, bytes, roomy);
    SlideRefinesSet(r.packets, packets, n);
    if k == n {
      SlideTwice(r.packets, packets, n);
    } else {
      RefusedLater(r.packets, packets, w, AcceptInto(packets, n), k);
    }
  }

  // ----------------------------------------------------------------------- step by step

  lemma ReceivedByMore(s: Sender, s': Sender, r: Receiver, key: Key)
    requires Received(s, r, key) && Grows(s, s')
    ensures Received(s', r, key)
  {
    var n :| Arrived(s, r, key, n);
    assert Arrived(s', r, key, n);
  }

  // The sending endpoint moves: its packets stay, and it hears only what the other owes.
  lemma SenderTruthful(x: End, y: End, x': End)
    requires Truthful(x, y) && Grows(x.sender, x'.sender) && x'.heard <= y.owed
    ensures Truthful(x', y)
  {
    forall key | key in y.owed ensures Received(x'.sender, y.receiver, key) {
      ReceivedByMore(x.sender, x'.sender, y.receiver, key);
    }
  }

  lemma ReceivedBySame(s: Sender, r: Receiver, r': Receiver, key: Key)
    requires Received(s, r, key) && SameWindows(r, r')
    ensures Received(s, r', key)
  {
    var n :| Arrived(s, r, key, n);
    assert Arrived(s, r', key, n);
  }

  // The acknowledging endpoint moves of its own accord.
  lemma OwnTruthful(x: End, y: End, y': End)
    requires Truthful(x, y) && SameWindows(y.receiver, y'.receiver)
    requires NoNewReceipts(y.sender, y'.sender) && y'.owed == y.owed
    ensures Truthful(x, y')
  {
    forall key | key in y.owed ensures Received(x.sender, y'.receiver, key) {
      ReceivedBySame(x.sender, y.receiver, y'.receiver, key);
    }
  }

  // It takes a packet: what was received stays so ...
  lemma StillReceived(limits: Limits, s: Sender, r: Receiver, now: nat, n: nat, roomy: bool, key: Key, b: T.Book)
    requires R.Consistent(r.reassembly) && n in s.wire && ParcelOk(s, s.wire[n]) && T.CountersFit(s) && n > 0
    requires T.WindowsOk(r, b) && Received(s, r, key)
    ensures Received(s, Receive(limits, r, now, n, s.wire[n].bytes, roomy).r, key)
  {
    StaysRefused(limits, s, r, now, n, roomy, key, T.Ids(b, key.0));
    var k :| Arrived(s, r, key, k);
    PacketsRefused(limits, r, now, n, s.wire[n].bytes, roomy, b.packets, k);
    assert Arrived(s, Receive(limits, r, now, n, s.wire[n].bytes, roomy).r, key, k);
  }

  // ... and the id it carries is received now.
  lemma NowReceived(limits: Limits, s: Sender, r: Receiver, now: nat, n: nat, roomy: bool, b: T.Book)
    requires R.Consistent(r.reassembly) && n in s.wire && ParcelOk(s, s.wire[n]) && T.CountersFit(s) && n > 0
    requires T.WindowsOk(r, b) && Slide(r.packets, n).1 && s.wire[n].tag.Tracked?
    ensures var tag := s.wire[n].tag;
      Received(s, Receive(limits, r, now, n, s.wire[n].bytes, roomy).r, (tag.channel, tag.id))
  {
    var tag := s.wire[n].tag;
    BecomesRefused(limits, s, r, now, n, roomy, T.Ids(b, tag.channel));
    PacketsRefused(limits, r, now, n, s.wire[n].bytes, roomy, b.packets, n);
    assert Arrived(s, Receive(limits, r, now, n, s.wire[n].bytes, roomy).r, (tag.channel, tag.id), n);
  }

  ghost predicate Takes(x: End, s: Sender, n: nat) {
    && EndReady(x) && T.SenderOk(x.sender) && n > 0
    && n in s.wire && ParcelOk(s, s.wire[n]) && T.CountersFit(s)
  }

  // The signals of a packet, and the answer to them.
  lemma SignalsAnswered(x: End, s: Sender, n: nat, now: nat, roomy: bool, room: nat -> bool, signals: seq<Signal>,
                        x': End)
    requires Takes(x, s, n) && x' == Taking(x, s.wire[n].bytes, n, now, roomy, room)
    requires signals == if Slide(x.receiver.packets, n).1 then SignalsFor(s.wire[n].tag) else []
    ensures x'.owed == x.owed + Asked(signals) && x'.heard == x.heard + Told(signals)
    ensures x'.receiver == Receive(x.limits, x.receiver, now, n, s.wire[n].bytes, roomy).r
    ensures |signals| <= 1 && forall signal | signal in signals :: Proper(signal)
    ensures x'.sender == Respond(x.sender, signals, now, room)
  {
    TakingIs(x, s, n, now, roomy, room);
    var r := x.receiver.(packets := Slide(x.receiver.packets, n).0);
    AllSignalsProper(x.limits, r, now, s.wire[n].bytes, roomy);
  }

  lemma AnswerGrows(s: Sender, signals: seq<Signal>, now: nat, room: nat -> bool)
    requires T.SenderReady(s) && T.SenderOk(s) && |signals| <= 1 && forall signal | signal in signals :: Proper(signal)
    ensures Grows(s, Respond(s, signals, now, room))
  {
    if signals != [] {
      assert signals == [signals[0]] && Proper(signals[0]);
      RespondOne(s, signals[0], now, room);
      T.SenderStepOk(s, Answer(signals[0], now, room(0)));
    }
  }

  lemma ToldIsOwed(s: Sender, n: nat, owed: set<Key>)
    requires OnlyOwed(s, owed) && n in s.wire
    ensures Told(SignalsFor(s.wire[n].tag)) <= owed && Told([]) == {}
  {
    var tag := s.wire[n].tag;
    forall key | key in Told(SignalsFor(tag)) ensures key in owed {
      assert tag.Receipt? && key == (tag.channel, tag.id);
    }
  }

  lemma AnsweringIsTruthful(x: End, y: End, signals: seq<Signal>, now: nat, room: nat -> bool, x': End)
    requires Truthful(x, y) && T.SenderReady(x.sender) && T.SenderOk(x.sender)
    requires |signals| <= 1 && (forall signal | signal in signals :: Proper(signal)) && Told(signals) <= y.owed
    requires x'.sender == Respond(x.sender, signals, now, room) && x'.heard == x.heard + Told(signals)
    ensures Truthful(x', y)
  {
    AnswerGrows(x.sender, signals, now, room);
    SenderTruthful(x, y, x');
  }

  lemma HearingIsTruthful(x: End, y: End, n: nat, now: nat, roomy: bool, room: nat -> bool, x': End)
    requires Truthful(x, y) && Takes(x, y.sender, n) && x' == Taking(x, y.sender.wire[n].bytes, n, now, roomy, room)
    ensures Truthful(x', y)
  {
    var tag := y.sender.wire[n].tag;
    var signals := if Slide(x.receiver.packets, n).1 then SignalsFor(tag) else [];
    SignalsAnswered(x, y.sender, n, now, roomy, room, signals, x');
    ToldIsOwed(y.sender, n, y.owed);
    AnsweringIsTruthful(x, y, signals, now, room, x');
  }

  lemma AnswerOwed(s: Sender, signal: Signal, now: nat, room: bool, owed: set<Key>)
    requires T.SenderReady(s) && Proper(signal) && OnlyOwed(s, owed)
    requires signal.Acknowledge? ==> (signal.channel, signal.id) in owed
    ensures OnlyOwed(T.Moved(s, Answer(signal, now, room)), owed)
  {
  }

  lemma OwedMore(s: Sender, owed: set<Key>, more: set<Key>)
    requires OnlyOwed(s, owed)
    ensures OnlyOwed(s, owed + more)
  {
  }

  lemma AnswersOwed(s: Sender, signals: seq<Signal>, now: nat, room: nat -> bool, owed: set<Key>)
    requires T.SenderReady(s) && |signals| <= 1 && (forall signal | signal in signals :: Proper(signal))
    requires OnlyOwed(s, owed)
    ensures OnlyOwed(Respond(s, signals, now, room), owed + Asked(signals))
  {
    OwedMore(s, owed, Asked(signals));
    if signals != [] {
      var signal := signals[0];
      assert signals == [signal] && signal in signals;
      RespondOne(s, signal, now, room);
      AnswerOwed(s, signal, now, room(0), owed + Asked(signals));
    }
  }

  lemma OwingIsTruthful(x: End, y: End, n: nat, now: nat, roomy: bool, room: nat -> bool, y': End, b: T.Book)
    requires Truthful(x, y) && Takes(y, x.sender, n) && y' == Taking(y, x.sender.wire[n].bytes, n, now, roomy, room)
    requires T.WindowsOk(y.receiver, b)
    ensures Truthful(x, y')
  {
    var tag := x.sender.wire[n].tag;
    var signals := if Slide(y.receiver.packets, n).1 then SignalsFor(tag) else [];
    SignalsAnswered(y, x.sender, n, now, roomy, room, signals, y');
    AnswersOwed(y.sender, signals, now, room, y.owed);
    forall key | key in y'.owed ensures Received(x.sender, y'.receiver, key) {
      if key in y.owed {
        StillReceived(y.limits, x.sender, y.receiver, now, n, roomy, key, b);
      } else {
        NowReceived(y.limits, x.sender, y.receiver, now, n, roomy, b);
      }
    }
  }

  // ----------------------------------------------------------------------------- whole runs

  ghost predicate AllTruthful(p: Pair) { Truthful(p.a, p.b) && Truthful(p.b, p.a) }

  lemma ActTruthful(p: Pair, step: Step, first: bool)
    requires Ready(p) && HonestWires(p) && Legal(p, step) && step.Act? && Truthful(p.Of(first), p.Of(!first))
    ensures var p' := Apply(p, step); Truthful(p'.Of(first), p'.Of(!first))
  {
    var x, y, p' := p.Of(first), p.Of(!first), Apply(p, step);
    if step.first == first {
      if !step.act.Expire? { T.SenderStepOk(x.sender, step.act); }
      SenderTruthful(x, y, p'.Of(first));
    } else {
      OwnReceipts(y.sender, step.act);
      OwnTruthful(x, y, p'.Of(!first));
    }
  }

  lemma TakeTruthful(p: Pair, step: Step, first: bool, b: T.Book)
    requires Ready(p) && HonestWires(p) && Legal(p, step) && step.Take? && Truthful(p.Of(first), p.Of(!first))
    requires T.CountersFit(p.a.sender) && T.CountersFit(p.b.sender) && T.WindowsOk(p.Of(!first).receiver, b)
    ensures var p' := Apply(p, step); Truthful(p'.Of(first), p'.Of(!first))
  {
    var x, y, p' := p.Of(first), p.Of(!first), Apply(p, step);
    var peer := p.Of(!step.first).sender;
    assert WireOk(peer) && ParcelOk(peer, peer.wire[step.sequence]);
    if step.first == first {
      HearingIsTruthful(x, y, step.sequence, step.now, step.roomy, step.room, p'.Of(first));
    } else {
      OwingIsTruthful(x, y, step.sequence, step.now, step.roomy, step.room, p'.Of(!first), b);
    }
  }

  lemma StepTruthful(p: Pair, step: Step, p': Pair, first: bool, b: T.Book)
    requires Ready(p) && HonestWires(p) && Next(p, step, p') && Truthful(p.Of(first), p.Of(!first))
    requires T.WindowsOk(p.Of(!first).receiver, b)
    ensures Truthful(p'.Of(first), p'.Of(!first))
  {
    if step.Act? { ActTruthful(p, step, first); } else { TakeTruthful(p, step, first, b); }
  }

  lemma {:induction false} AlwaysTruthful(states: seq<Pair>, steps: seq<Step>)
    requires IsRun(states, steps)
    ensures AllTruthful(states[|steps|])
    decreases |steps|
  {
    var n := |steps|;
    if n > 0 {
      var p := states[n - 1];
      assert Next(p, steps[n - 1], states[n]);
      AlwaysTruthful(states[..n], steps[..n - 1]);
      var ca, cb := DirectionsAreRuns(states[..n], steps[..n - 1]);
      var ba := T.InvariantHolds(p.b.limits, ca.states, ca.acts);
      var bb := T.InvariantHolds(p.a.limits, cb.states, cb.acts);
      StepTruthful(p, steps[n - 1], states[n], true, ba);
      StepTruthful(p, steps[n - 1], states[n], false, bb);
    }
  }

  // In every run, an id that an endpoint took as acknowledged is one whose packet the other endpoint had taken: its
  // replay window refuses that packet and its id window that id.
  lemma AcknowledgedWasReceived(states: seq<Pair>, steps: seq<Step>, first: bool, channel: Channel, id: nat)
    returns (n: nat)
    requires IsRun(states, steps) && (channel, id) in states[|steps|].Of(first).heard
    ensures var s, r := states[|steps|].Of(first).sender, states[|steps|].Of(!first).receiver;
      && channel.IsReliable() && n in s.wire && s.wire[n].tag == Tracked(channel, id)
      && !Slide(r.packets, n).1 && !Slide(IdsOf(r, channel), id).1
  {
    AlwaysTruthful(states, steps);
    var s, r := states[|steps|].Of(first).sender, states[|steps|].Of(!first).receiver;
    assert Received(s, r, (channel, id));
    n :| Arrived(s, r, (channel, id), n);
  }

  // ------------------------------------------------------------ what leaves the sessions

  lemma CutExactly(q: seq<S.Pending>, k: nat, m: S.Pending)
    requires S.Sorted(q) && k < |q|
    ensures m in q[..k] + q[k + 1..] <==> m in q && m.id != q[k].id
  {
    var cut := q[..k] + q[k + 1..];
    if m in q && m.id != q[k].id {
      var i :| 0 <= i < |q| && q[i] == m;
      assert cut[if i < k then i else i - 1] == m;
    }
    if m in cut {
      var i :| 0 <= i < |cut| && cut[i] == m;
      assert if i < k then S.Before(q[i], q[k]) && m == q[i] else S.Before(q[k], q[i + 1]) && m == q[i + 1];
    }
  }

  lemma NotFound(q: seq<S.Pending>, id: nat, m: S.Pending)
    requires S.Find(q, id) == |q| && m in q
    ensures m.id != id
  {
  }

  // acknowledge(): exactly the message with that id leaves the queue.
  lemma AckTakesExactly(s: S.State, id: nat, now: nat, m: S.Pending)
    requires S.Valid(s)
    ensures m in S.AcknowledgeMessage(s, id, now).0.pending <==> m in s.pending && m.id != id
  {
    var k := S.Find(s.pending, id);
    if k < |s.pending| { CutExactly(s.pending, k, m); } else if m in s.pending { NotFound(s.pending, id, m); }
  }

  lemma AnswerTakesExactly(s: Sender, signal: Signal, now: nat, room: bool, channel: Channel, m: S.Pending)
    requires T.SenderReady(s) && Proper(signal) && channel.IsReliable()
    ensures m in T.Moved(s, Answer(signal, now, room)).Session(channel).pending <==>
      m in s.Session(channel).pending && signal != Heard(channel, m.id)
  {
    if signal.Heard? { AckTakesExactly(s.Session(signal.channel), signal.id, now, m); }
  }

  lemma RespondTakesExactly(s: Sender, signals: seq<Signal>, now: nat, room: nat -> bool, channel: Channel,
                            m: S.Pending)
    requires T.SenderReady(s) && |signals| <= 1 && (forall signal | signal in signals :: Proper(signal))
    requires channel.IsReliable()
    ensures m in Respond(s, signals, now, room).Session(channel).pending <==>
      m in s.Session(channel).pending && Heard(channel, m.id) !in signals
  {
    if signals != [] {
      var signal := signals[0];
      assert signals == [signal] && signal in signals;
      RespondOne(s, signal, now, room);
      AnswerTakesExactly(s, signal, now, room(0), channel, m);
    }
  }

  lemma HeardFor(tag: Tag, channel: Channel, id: nat)
    ensures Heard(channel, id) in SignalsFor(tag) <==> tag == Receipt(channel, id)
  {
  }

  lemma TakingRemovesExactly(x: End, s: Sender, n: nat, now: nat, roomy: bool, room: nat -> bool, x': End,
                             channel: Channel, m: S.Pending)
    requires Takes(x, s, n) && x' == Taking(x, s.wire[n].bytes, n, now, roomy, room) && channel.IsReliable()
    ensures m in x'.sender.Session(channel).pending <==>
      && m in x.sender.Session(channel).pending
      && !(Slide(x.receiver.packets, n).1 && s.wire[n].tag == Receipt(channel, m.id))
  {
    var signals := if Slide(x.receiver.packets, n).1 then SignalsFor(s.wire[n].tag) else [];
    SignalsAnswered(x, s, n, now, roomy, room, signals, x');
    HeardFor(s.wire[n].tag, channel, m.id);
    assert Heard(channel, m.id) in signals <==>
           Slide(x.receiver.packets, n).1 && s.wire[n].tag == Receipt(channel, m.id);
    RespondTakesExactly(x.sender, signals, now, room, channel, m);
  }

  // A packet takes out of the sessions exactly the message it acknowledges, on the channel it names; a replayed
  // packet and every other one take nothing.
  lemma TakeRemovesExactly(p: Pair, step: Step, channel: Channel, m: S.Pending)
    requires Ready(p) && HonestWires(p) && Legal(p, step) && step.Take? && channel.IsReliable()
    requires T.CountersFit(p.a.sender) && T.CountersFit(p.b.sender)
    ensures var x, x', tag :=
      p.Of(step.first), Apply(p, step).Of(step.first), p.Of(!step.first).sender.wire[step.sequence].tag;
      m in x'.sender.Session(channel).pending <==>
      && m in x.sender.Session(channel).pending
      && !(Slide(x.receiver.packets, step.sequence).1 && tag == Receipt(channel, m.id))
  {
    var x, peer := p.Of(step.first), p.Of(!step.first).sender;
    assert WireOk(peer) && ParcelOk(peer, peer.wire[step.sequence]);
    TakingRemovesExactly(x, peer, step.sequence, step.now, step.roomy, step.room, Apply(p, step).Of(step.first),
                         channel, m);
  }

  // --------------------------------------------------------------------------- the loop

  lemma ReceiptQueued(s: Sender, channel: Channel, id: nat, room: nat -> bool, now: nat)
    requires T.SenderReady(s) && Proper(Acknowledge(channel, id)) && room(0)
    ensures var s' := Respond(s, [Acknowledge(channel, id)], now, room);
      s.seqNo in s'.wire && s'.wire[s.seqNo].tag == Receipt(channel, id)
  {
    AckWidths();
    FrameWidths();
    RespondOne(s, Acknowledge(channel, id), now, room);
  }

  lemma TakingAnswers(x: End, s: Sender, n: nat, now: nat, roomy: bool, room: nat -> bool, x': End)
    requires Takes(x, s, n) && x' == Taking(x, s.wire[n].bytes, n, now, roomy, room)
    requires s.wire[n].tag.Tracked? && Slide(x.receiver.packets, n).1 && room(0)
    ensures var tag := s.wire[n].tag;
      x.sender.seqNo in x'.sender.wire && x'.sender.wire[x.sender.seqNo].tag == Receipt(tag.channel, tag.id)
  {
    var tag := s.wire[n].tag;
    var signals := SignalsFor(tag);
    SignalsAnswered(x, s, n, now, roomy, room, signals, x');
    assert signals[0] in signals;
    ReceiptQueued(x.sender, tag.channel, tag.id, room, now);
  }

  // An endpoint that takes a reliable packet, with room for an answer, queues its acknowledgement.
  lemma TakeAnswers(p: Pair, step: Step)
    requires Ready(p) && HonestWires(p) && Legal(p, step) && step.Take?
    requires T.CountersFit(p.a.sender) && T.CountersFit(p.b.sender)
    requires var x, tag := p.Of(step.first), p.Of(!step.first).sender.wire[step.sequence].tag;
      tag.Tracked? && Slide(x.receiver.packets, step.sequence).1 && step.room(0)
    ensures var x, x', tag :=
      p.Of(step.first), Apply(p, step).Of(step.first), p.Of(!step.first).sender.wire[step.sequence].tag;
      x.sender.seqNo in x'.sender.wire && x'.sender.wire[x.sender.seqNo].tag == Receipt(tag.channel, tag.id)
  {
    var x, peer := p.Of(step.first), p.Of(!step.first).sender;
    assert WireOk(peer) && ParcelOk(peer, peer.wire[step.sequence]);
    TakingAnswers(x, peer, step.sequence, step.now, step.roomy, step.room, Apply(p, step).Of(step.first));
  }

  lemma TakeGrows(x: End, s: Sender, n: nat, now: nat, roomy: bool, room: nat -> bool, x': End)
    requires Takes(x, s, n) && x' == Taking(x, s.wire[n].bytes, n, now, roomy, room)
    ensures Grows(x.sender, x'.sender)
  {
    var signals := if Slide(x.receiver.packets, n).1 then SignalsFor(s.wire[n].tag) else [];
    SignalsAnswered(x, s, n, now, roomy, room, signals, x');
    AnswerGrows(x.sender, signals, now, room);
  }

  lemma StepGrows(p: Pair, step: Step, p': Pair, first: bool)
    requires Ready(p) && HonestWires(p) && Next(p, step, p')
    ensures Grows(p.Of(first).sender, p'.Of(first).sender)
  {
    if step.first == first {
      if step.Take? {
        var x, peer := p.Of(first), p.Of(!first).sender;
        assert WireOk(peer) && ParcelOk(peer, peer.wire[step.sequence]);
        TakeGrows(x, peer, step.sequence, step.now, step.roomy, step.room, p'.Of(first));
      } else if !step.act.Expire? {
        T.SenderStepOk(p.Of(first).sender, step.act);
      }
    }
  }

  // At every step of a run the functions above are defined.
  lemma ReadyAt(states: seq<Pair>, steps: seq<Step>, i: nat)
    requires IsRun(states, steps) && i <= |steps|
    ensures Ready(states[i]) && HonestWires(states[i])
  {
    var states', steps' := states[..i + 1], steps[..i];
    forall k | 0 <= k < |steps'| ensures Next(states'[k], steps'[k], states'[k + 1]) {
      assert Next(states[k], steps[k], states[k + 1]);
    }
    var ca, cb := DirectionsAreRuns(states', steps');
  }

  lemma WireGrows(states: seq<Pair>, steps: seq<Step>, i: nat, first: bool)
    requires IsRun(states, steps) && i < |steps|
    ensures Grows(states[i].Of(first).sender, states[i + 1].Of(first).sender)
  {
    ReadyAt(states, steps, i);
    assert Next(states[i], steps[i], states[i + 1]);
    StepGrows(states[i], steps[i], states[i + 1], first);
  }

  lemma {:induction false} WiresGrow(states: seq<Pair>, steps: seq<Step>, i: nat, j: nat, first: bool)
    requires IsRun(states, steps) && i <= j <= |steps|
    ensures Grows(states[i].Of(first).sender, states[j].Of(first).sender)
    decreases j
  {
    if i < j {
      WiresGrow(states, steps, i, j - 1, first);
      WireGrows(states, steps, j - 1, first);
      GrowsOn(states[i].Of(first).sender, states[j - 1].Of(first).sender, states[j].Of(first).sender);
    }
  }

  // The whole loop, in any run and over any steps between: a reliable packet is taken, its acknowledgement is queued,
  // and when that packet is taken in turn exactly this id leaves exactly this channel's session.
  lemma AckLoop(states: seq<Pair>, steps: seq<Step>, i: nat, j: nat, first: bool, channel: Channel, m: S.Pending)
    requires IsRun(states, steps) && i < j < |steps| && channel.IsReliable()
    requires Legal(states[i], steps[i]) && Legal(states[j], steps[j])
    requires steps[i].Take? && steps[i].first == !first && steps[i].room(0)
    requires states[i].Of(first).sender.wire[steps[i].sequence].tag.Tracked?
    requires Slide(states[i].Of(!first).receiver.packets, steps[i].sequence).1
    requires steps[j].Take? && steps[j].first == first && steps[j].sequence == states[i].Of(!first).sender.seqNo
    requires Slide(states[j].Of(first).receiver.packets, steps[j].sequence).1
    ensures var tag := states[i].Of(first).sender.wire[steps[i].sequence].tag;
      m in states[j + 1].Of(first).sender.Session(channel).pending <==>
      m in states[j].Of(first).sender.Session(channel).pending && !(tag.channel == channel && tag.id == m.id)
  {
    assert Next(states[i], steps[i], states[i + 1]) && Next(states[j], steps[j], states[j + 1]);
    ReadyAt(states, steps, i);
    ReadyAt(states, steps, j);
    TakeAnswers(states[i], steps[i]);
    WiresGrow(states, steps, i + 1, j, !first);
    TakeRemovesExactly(states[j], steps[j], channel, m);
  }
}
