// What a send and a retransmission pass put on packets: every unit once, in order, under consecutive packet numbers.
module Posting {
  import opened Config
  import opened Codec
  import opened Outbound
  import opened Losses
  import S = Session
  import N = Resending

  // --------------------------------------------------------------------------- one send

  ghost predicate Waits(session: S.State, id: nat) {
    exists j :: 0 <= j < |session.pending| && session.pending[j].id == id
  }

  // Unit u is on packet n; a reliable one under this id, which waits for its acknowledgement.
  ghost predicate Goes(s: Sender, channel: Channel, n: nat, id: nat, u: Unit) {
    && n in s.wire
    && if !channel.IsReliable() then s.wire[n].tag == Free(u)
       else s.wire[n].tag == Tracked(channel, id) && IsFor(s, channel, id, u) && Waits(s.Session(channel), id)
  }

  // What one unit that goes out leaves of the others.
  ghost predicate OneOut(s: Sender, s': Sender, channel: Channel, u: Unit) {
    && s'.seqNo == s.seqNo + 1 && Goes(s', channel, s.seqNo, s.Session(channel).nextId, u)
    && (channel.IsReliable() ==>
          && s'.Session(channel).nextId == s.Session(channel).nextId + 1
          && forall id | Waits(s.Session(channel), id) :: Waits(s'.Session(channel), id))
  }

  lemma EnqueuedWaits(s: S.State, kind: byte, data: seq<byte>, priority: Priority, lifetime: nat, now: nat)
    ensures var (s', r) := S.EnqueueMessage(s, kind, data, priority, lifetime, now);
      r.Success? ==> Waits(s', s.nextId) && forall id | Waits(s, id) :: Waits(s', id)
  {
    var (s', r) := S.EnqueueMessage(s, kind, data, priority, lifetime, now);
    if r.Success? {
      var k := S.InsertAt(s.pending, priority);
      assert s'.pending[k].id == s.nextId;
      forall id | Waits(s, id) ensures Waits(s', id) {
        var j :| 0 <= j < |s.pending| && s.pending[j].id == id;
        assert s'.pending[if j < k then j else j + 1] == s.pending[j];
      }
    }
  }

  lemma NotedWaits(s: S.State, sent: nat, now: nat)
    ensures forall id | Waits(s, id) :: Waits(S.NoteSentMessage(s, sent, now).0, id)
    ensures S.NoteSentMessage(s, sent, now).0.nextId == s.nextId
  {
    var s' := S.NoteSentMessage(s, sent, now).0;
    forall id | Waits(s, id) ensures Waits(s', id) {
      var j :| 0 <= j < |s.pending| && s.pending[j].id == id;
      assert s'.pending[j].id == id;
    }
  }

  lemma PostGoes(s: Sender, channel: Channel, session: S.State, p: S.Pending, u: Unit, later: nat, room: bool)
    requires S.Valid(session) && channel.IsReliable() && Waits(session, p.id)
    ensures var (s', rc) := Post(s, channel, session, p, u, later, room);
      rc.Ok? ==>
        && s'.seqNo == s.seqNo + 1 && Goes(s', channel, s.seqNo, p.id, u)
        && s'.Session(channel).nextId == session.nextId
        && forall id | Waits(session, id) :: Waits(s'.Session(channel), id)
  {
    NotedWaits(session, p.id, later);
  }

  lemma ReliableGoes(s: Sender, channel: Channel, kind: byte, data: seq<byte>, u: Unit, env: Env, s': Sender)
    requires S.Valid(s.Session(channel)) && |data| < U16_LIMIT && channel.IsReliable()
    requires SendReliable(s, channel, kind, data, u, env) == (s', Ok)
    ensures OneOut(s, s', channel, u)
  {
    var before, now := s.Session(channel), env.clock(2 * u.index);
    S.EnqueueKeepsValid(before, kind, data, env.priority, env.lifetime, now);
    S.EnqueueContents(before, kind, data, env.priority, env.lifetime, now);
    EnqueuedWaits(before, kind, data, env.priority, env.lifetime, now);
    var (session, r) := S.EnqueueMessage(before, kind, data, env.priority, env.lifetime, now);
    SendReliableParts(s, channel, kind, data, u, env, session, r);
    PostGoes(s, channel, session, r.value, u, env.clock(2 * u.index + 1), env.room(u.index));
  }

  lemma UnitGoes(s: Sender, rec: Record, i: nat, env: Env, s': Sender)
    requires Sending(s, rec, i) && i < rec.Units() && SendUnit(s, rec, i, env) == (s', Ok)
    ensures OneOut(s, s', rec.channel, Unit(|s.sends| - 1, i))
  {
    UnitFits(rec, i, 0);
    if rec.channel.IsReliable() {
      ReliableGoes(s, rec.channel, rec.FrameKind(), rec.Body(i), Unit(|s.sends| - 1, i), env, s');
    }
  }

  // Units i.. of the message go out on the next packets, under the next ids.
  ghost predicate RestGoes(s: Sender, s': Sender, rec: Record, send: nat, i: nat) {
    && i <= rec.Units() && s'.seqNo == s.seqNo + (rec.Units() - i)
    && (forall k: nat | i <= k < rec.Units() ::
          Goes(s', rec.channel, s.seqNo + (k - i), s.Session(rec.channel).nextId + (k - i), Unit(send, k)))
    && (rec.channel.IsReliable() ==>
          forall id | Waits(s.Session(rec.channel), id) :: Waits(s'.Session(rec.channel), id))
  }

  lemma GoesOn(s1: Sender, s': Sender, channel: Channel, n: nat, id: nat, u: Unit)
    requires Goes(s1, channel, n, id, u) && Grows(s1, s')
    requires channel.IsReliable() ==> Waits(s'.Session(channel), id)
    ensures Goes(s', channel, n, id, u)
  {
  }

  lemma RestGoesStep(s: Sender, s1: Sender, s': Sender, rec: Record, send: nat, i: nat)
    requires i < rec.Units() && OneOut(s, s1, rec.channel, Unit(send, i)) && RestGoes(s1, s', rec, send, i + 1)
    requires Grows(s1, s')
    ensures RestGoes(s, s', rec, send, i)
  {
    GoesOn(s1, s', rec.channel, s.seqNo, s.Session(rec.channel).nextId, Unit(send, i));
    forall k: nat | i <= k < rec.Units()
      ensures Goes(s', rec.channel, s.seqNo + (k - i), s.Session(rec.channel).nextId + (k - i), Unit(send, k))
    {
      if k > i {
        assert Goes(s', rec.channel, s1.seqNo + (k - (i + 1)), s1.Session(rec.channel).nextId + (k - (i + 1)),
                    Unit(send, k));
      }
    }
  }

  lemma NextGoes(s: Sender, rec: Record, i: nat, env: Env, s1: Sender, s': Sender)
    requires Sending(s, rec, i) && i < rec.Units() && SendUnits(s, rec, i, env) == (s', Ok)
    requires s1 == SendUnit(s, rec, i, env).0
    ensures Sending(s1, rec, i + 1) && s1.sends == s.sends && SendUnits(s1, rec, i + 1, env) == (s', Ok)
    ensures OneOut(s, s1, rec.channel, Unit(|s.sends| - 1, i))
  {
    SendUnitsStep(s, rec, i, env, s1, SendUnit(s, rec, i, env).1);
    SendUnitLinks(s, rec, i, env);
    UnitGoes(s, rec, i, env, s1);
  }

  lemma {:induction false} UnitsGo(s: Sender, rec: Record, i: nat, env: Env, s': Sender)
    requires Sending(s, rec, i) && SendUnits(s, rec, i, env) == (s', Ok)
    ensures RestGoes(s, s', rec, |s.sends| - 1, i)
    decreases rec.Units() - i
  {
    if i < rec.Units() {
      var s1 := SendUnit(s, rec, i, env).0;
      NextGoes(s, rec, i, env, s1, s');
      SendUnitsGrows(s1, rec, i + 1, env, s');
      UnitsGo(s1, rec, i + 1, env, s');
      RestGoesStep(s, s1, s', rec, |s.sends| - 1, i);
    }
  }

  lemma BegunGoes(s: Sender, s0: Sender, s': Sender, rec: Record, send: nat)
    requires s0 == Begin(s, rec) && RestGoes(s0, s', rec, send, 0)
    ensures RestGoes(s, s', rec, send, 0)
  {
    assert s0.seqNo == s.seqNo && s0.Session(rec.channel) == s.Session(rec.channel);
    forall k: nat | k < rec.Units()
      ensures Goes(s', rec.channel, s.seqNo + (k - 0), s.Session(rec.channel).nextId + (k - 0), Unit(send, k))
    {
      assert Goes(s', rec.channel, s0.seqNo + (k - 0), s0.Session(rec.channel).nextId + (k - 0), Unit(send, k));
    }
  }

  lemma SentIsApplication(s: Sender, channel: Channel, kind: byte, payload: seq<byte>, env: Env)
    requires SessionsValid(s) && BookOk(s) && Send(s, channel, kind, payload, env).1 == Ok
    ensures channel.IsApplication()
  {
  }

  // send(): when it succeeds, each unit of the message is on a packet of its own, in order, from the next packet number
  // on; and the units of a reliable message wait, under the next ids, to be acknowledged.
  lemma SendGoesOut(s: Sender, channel: Channel, kind: byte, payload: seq<byte>, env: Env, rec: Record, s': Sender)
    requires LinksOk(s) && SessionsValid(s) && BookOk(s)
    requires Send(s, channel, kind, payload, env) == (s', Ok) && rec == RecordFor(s, channel, kind, payload)
    ensures s'.sends == s.sends + [rec] && RestGoes(s, s', rec, |s.sends|, 0)
  {
    SentIsApplication(s, channel, kind, payload, env);
    SendStarts(s, channel, kind, payload, env, rec);
    var s0 := Begin(s, rec);
    SendUnitsLinks(s0, rec, 0, env, s');
    UnitsGo(s0, rec, 0, env, s');
    BegunGoes(s, s0, s', rec, |s.sends|);
  }

  // ----------------------------------------------------------------------- one pass

  ghost predicate OnPacket(s: Sender, n: nat, channel: Channel, id: nat) {
    n in s.wire && s.wire[n].tag == Tracked(channel, id)
  }

  // These messages are on packets of their own, in order, from number `first` on.
  ghost predicate Reposted(s: Sender, first: nat, channel: Channel, ids: seq<nat>) {
    forall k: nat | k < |ids| :: OnPacket(s, first + k, channel, ids[k])
  }

  lemma CarriedFits(s: Sender, channel: Channel, p: S.Pending)
    requires Carries(s, channel, p.id, p.kind, p.encoded)
    ensures |p.encoded| <= MAX_MESSAGE_BYTES
    ensures |EncodeMessage(Message(channel, p.kind, p.encoded))| <= MAX_ENCRYPTED_PLAINTEXT_BYTES
  {
    var u := s.issued[(channel, p.id)];
    UnitFits(s.sends[u.send], u.index, p.id);
  }

  lemma RepostedStep(s': Sender, first: nat, channel: Channel, id: nat, ids: seq<nat>)
    requires OnPacket(s', first, channel, id) && Reposted(s', first + 1, channel, ids)
    ensures Reposted(s', first, channel, [id] + ids)
  {
    forall k: nat | k < |[id] + ids| ensures OnPacket(s', first + k, channel, ([id] + ids)[k]) {
      if k > 0 { assert OnPacket(s', first + 1 + (k - 1), channel, ids[k - 1]); }
    }
  }

  // The first of them goes, and the others are still to go.
  lemma FirstGoes(s: Sender, channel: Channel, p: S.Pending, s1: Sender)
    requires LinksOk(s) && SessionsValid(s) && Carries(s, channel, p.id, p.kind, p.encoded)
    requires s1 == QueueFrame(s, Message(channel, p.kind, p.encoded), Tracked(channel, p.id), true).0
    ensures LinksOk(s1) && SessionsValid(s1) && Extends(s, s1) && Below(s1) && s1.seqNo == s.seqNo + 1
    ensures OnPacket(s1, s.seqNo, channel, p.id)
  {
    CarriedFits(s, channel, p);
    QueueLinks(s, Message(channel, p.kind, p.encoded), Tracked(channel, p.id), true);
  }

  lemma OthersCarry(s: Sender, s1: Sender, channel: Channel, sent: seq<S.Pending>)
    requires AllCarry(s, channel, sent) && sent != [] && Extends(s, s1)
    ensures AllCarry(s1, channel, sent[1..]) && Carries(s, channel, sent[0].id, sent[0].kind, sent[0].encoded)
  {
    ExtendsCarry(s, s1, channel, sent);
  }

  lemma RepostedMore(s1: Sender, s': Sender, first: nat, channel: Channel, sent: seq<S.Pending>)
    requires sent != [] && OnPacket(s1, first, channel, sent[0].id) && Grows(s1, s')
    requires Reposted(s', first + 1, channel, N.IdsOf(sent[1..]))
    ensures Reposted(s', first, channel, N.IdsOf(sent))
  {
    RepostedStep(s', first, channel, sent[0].id, N.IdsOf(sent[1..]));
    assert N.IdsOf(sent) == [sent[0].id] + N.IdsOf(sent[1..]);
  }

  lemma {:induction false} RepostGoes(s: Sender, channel: Channel, sent: seq<S.Pending>, s': Sender)
    requires LinksOk(s) && SessionsValid(s) && AllCarry(s, channel, sent) && s' == Repost(s, channel, sent)
    ensures s'.seqNo == s.seqNo + |sent| && Reposted(s', s.seqNo, channel, N.IdsOf(sent))
    decreases |sent|
  {
    if sent != [] {
      var p := sent[0];
      var s1 := QueueFrame(s, Message(channel, p.kind, p.encoded), Tracked(channel, p.id), true).0;
      assert s' == Repost(s1, channel, sent[1..]);
      assert Carries(s, channel, p.id, p.kind, p.encoded);
      FirstGoes(s, channel, p, s1);
      OthersCarry(s, s1, channel, sent);
      RepostGrows(s1, channel, sent[1..]);
      RepostGoes(s1, channel, sent[1..], s');
      RepostedMore(s1, s', s.seqNo, channel, sent);
    }
  }

  // What pump_reliable hands to the packets.
  lemma PumpParts(s: Sender, channel: Channel, now: nat, queued: nat -> bool, alive: S.State, session: S.State,
                  sent: seq<S.Pending>, s0: Sender)
    requires LinksOk(s) && SessionsValid(s) && channel.IsReliable()
    requires alive == S.ExpireOldMessages(s.Session(channel), now)
    requires session == S.ResendDueMessages(alive, now, queued).0 && sent == S.ResendDueMessages(alive, now, queued).1
    requires s0 == s.With(channel, session)
    ensures S.Valid(alive) && LinksOk(s0) && SessionsValid(s0) && AllCarry(s0, channel, sent) && s0.seqNo == s.seqNo
  {
    var good := Carrying(s, channel);
    S.AliveContents(s.Session(channel).pending, now, good);
    S.ExpireKeepsValid(s.Session(channel), now);
    S.ResendContents(alive, 0, now, queued, [], good);
    S.ResendKeepsValid(alive, 0, now, queued, []);
    WithLinks(s, channel, session);
    WithValid(s, channel, session);
    ExtendsCarry(s, s0, channel, sent);
  }

  // pump_reliable(): the packets that go out carry, in queue order, exactly the messages that are unexpired and not in
  // flight or overdue, up to the first one that finds no place or no room; that one costs a packet number if it was the
  // room.
  lemma PumpGoesOut(s: Sender, channel: Channel, now: nat, queued: nat -> bool, alive: S.State, s': Sender)
    returns (n: nat)
    requires LinksOk(s) && SessionsValid(s) && channel.IsReliable()
    requires alive == S.ExpireOldMessages(s.Session(channel), now)
    requires s' == Pump(s, channel, now, queued)
    ensures n <= |alive.pending| && (n < |alive.pending| ==> N.Halts(alive, now, queued, n))
    ensures forall i | 0 <= i < n :: !N.Halts(alive, now, queued, i)
    ensures var ids := N.ReadyIds(alive.pending[..n], now);
      && Reposted(s', s.seqNo, channel, ids)
      && s'.seqNo == s.seqNo + |ids| + if n < |alive.pending| && !N.Full(alive, now, n) then 1 else 0
  {
    var (session, sent, ok) := S.ResendDueMessages(alive, now, queued);
    var s0 := s.With(channel, session);
    PumpParts(s, channel, now, queued, alive, session, sent, s0);
    n := N.ResendsExactly(alive, now, queued);
    RepostGoes(s0, channel, sent, Repost(s0, channel, sent));
    PumpIs(s, channel, now, queued, alive, session, sent, ok, s0);
    assert |N.IdsOf(sent)| == |sent|;
  }

  lemma PumpIs(s: Sender, channel: Channel, now: nat, queued: nat -> bool, alive: S.State, session: S.State,
               sent: seq<S.Pending>, ok: bool, s0: Sender)
    requires alive == S.ExpireOldMessages(s.Session(channel), now)
    requires (session, sent, ok) == S.ResendDueMessages(alive, now, queued) && s0 == s.With(channel, session)
    ensures var s' := Pump(s, channel, now, queued);
      && s'.wire == Repost(s0, channel, sent).wire
      && s'.seqNo == Repost(s0, channel, sent).seqNo + if ok then 0 else 1
  {
  }
}
