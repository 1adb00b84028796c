// Units that are on no packet and in no session: when a send leaves one behind, and that it stays behind.
module Losses {
  import opened Config
  import opened Codec
  import opened Fragments
  import opened Outbound
  import S = Session

  // ------------------------------------------------------------------------- gone for good

  ghost predicate Bears(s: Sender, tag: Tag, u: Unit) {
    tag == Free(u) || (tag.Tracked? && IsFor(s, tag.channel, tag.id, u))
  }

  ghost predicate IsFor(s: Sender, channel: Channel, id: nat, u: Unit) {
    (channel, id) in s.issued && s.issued[(channel, id)] == u
  }

  ghost predicate NoneFor(s: Sender, channel: Channel, q: seq<S.Pending>, u: Unit) {
    forall i | 0 <= i < |q| :: !IsFor(s, channel, q[i].id, u)
  }

  ghost predicate OffWire(s: Sender, u: Unit) { forall n | n in s.wire :: !Bears(s, s.wire[n].tag, u) }

  // No packet ever built carries the unit, and no session holds it.
  ghost predicate Gone(s: Sender, u: Unit) {
    && OffWire(s, u)
    && NoneFor(s, Reliable, s.reliable.pending, u) && NoneFor(s, ReliableOrdered, s.ordered.pending, u)
  }

  ghost function NotFor(s: Sender, channel: Channel, u: Unit): (nat, byte, seq<byte>) -> bool {
    (id: nat, kind: byte, encoded: seq<byte>) => !IsFor(s, channel, id, u)
  }

  lemma UnusedIsGone(s: Sender, u: Unit)
    requires Unused(s, u)
    ensures Gone(s, u)
  {
  }

  lemma QueueGone(s: Sender, m: Message, tag: Tag, room: bool, u: Unit)
    requires Gone(s, u) && !Bears(s, tag, u)
    ensures Gone(QueueFrame(s, m, tag, room).0, u)
  {
  }

  lemma WithGone(s: Sender, channel: Channel, session: S.State, u: Unit)
    requires Gone(s, u) && channel.IsReliable() && NoneFor(s, channel, session.pending, u)
    ensures Gone(s.With(channel, session), u)
  {
    var s' := s.With(channel, session);
    forall i | 0 <= i < |session.pending| ensures !IsFor(s', channel, session.pending[i].id, u) {
      assert !IsFor(s, channel, session.pending[i].id, u);
    }
  }

  lemma RepostedNone(s: Sender, s': Sender, channel: Channel, q: seq<S.Pending>, u: Unit)
    requires NoneFor(s, channel, q, u) && s'.issued == s.issued
    ensures NoneFor(s', channel, q, u)
  {
    forall i | 0 <= i < |q| ensures !IsFor(s', channel, q[i].id, u) { assert !IsFor(s, channel, q[i].id, u); }
  }

  lemma {:induction false} RepostGone(s: Sender, channel: Channel, sent: seq<S.Pending>, u: Unit)
    requires Gone(s, u) && NoneFor(s, channel, sent, u)
    ensures Gone(Repost(s, channel, sent), u)
    decreases |sent|
  {
    if sent != [] {
      var m := Message(channel, sent[0].kind, sent[0].encoded);
      assert !IsFor(s, channel, sent[0].id, u);
      QueueGone(s, m, Tracked(channel, sent[0].id), true, u);
      var s1 := QueueFrame(s, m, Tracked(channel, sent[0].id), true).0;
      RepostedNone(s, s1, channel, sent[1..], u);
      RepostGone(s1, channel, sent[1..], u);
    }
  }

  lemma PumpGone(s: Sender, channel: Channel, now: nat, queued: nat -> bool, u: Unit)
    requires Gone(s, u) && channel.IsReliable()
    ensures Gone(Pump(s, channel, now, queued), u)
  {
    var good := NotFor(s, channel, u);
    var session := S.ExpireOldMessages(s.Session(channel), now);
    assert S.AllHold(s.Session(channel).pending, good);
    S.AliveContents(s.Session(channel).pending, now, good);
    S.ResendContents(session, 0, now, queued, [], good);
    var (session', sent, _) := S.ResendDueMessages(session, now, queued);
    WithGone(s, channel, session', u);
    RepostedNone(s, s.With(channel, session'), channel, sent, u);
    RepostGone(s.With(channel, session'), channel, sent, u);
  }

  lemma AckGone(s: Sender, channel: Channel, id: nat, now: nat, u: Unit)
    requires Gone(s, u) && channel.IsReliable() && S.Accounted(s.Session(channel))
    ensures Gone(s.With(channel, S.AcknowledgeMessage(s.Session(channel), id, now).0), u)
  {
    assert S.AllHold(s.Session(channel).pending, NotFor(s, channel, u));
    S.AcknowledgeContents(s.Session(channel), id, now, NotFor(s, channel, u));
    WithGone(s, channel, S.AcknowledgeMessage(s.Session(channel), id, now).0, u);
  }

  // ------------------------------------------------- sending one message loses no other's unit

  lemma IssuedGone(s: Sender, channel: Channel, id: nat, v: Unit, u: Unit)
    requires Gone(s, u) && u != v
    ensures Gone(Issued(s, channel, id, v), u)
  {
    var s' := Issued(s, channel, id, v);
    assert forall ch, k | IsFor(s', ch, k, u) :: IsFor(s, ch, k, u);
  }

  lemma OfferNone(s: Sender, channel: Channel, session: S.State, p: S.Pending, v: Unit, u: Unit)
    requires Offers(s, channel, session, p, v) && (channel, p.id) !in s.issued
    requires NoneFor(s, channel, s.Session(channel).pending, u)
    ensures NoneFor(s, channel, session.pending, u)
  {
    var held := s.Session(channel).pending;
    forall i | 0 <= i < |session.pending| ensures !IsFor(s, channel, session.pending[i].id, u) {
      if session.pending[i] != p {
        var k :| 0 <= k < |held| && held[k] == session.pending[i];
        assert !IsFor(s, channel, held[k].id, u);
      }
    }
  }

  lemma IssueGone(s: Sender, channel: Channel, session: S.State, p: S.Pending, v: Unit, u: Unit)
    requires LinksOk(s) && Offers(s, channel, session, p, v) && Gone(s, u) && u != v
    ensures Gone(Issued(s.With(channel, session), channel, p.id, v), u)
  {
    NotIssuedYet(s, channel, p.id);
    OfferNone(s, channel, session, p, v, u);
    WithGone(s, channel, session, u);
    IssuedGone(s.With(channel, session), channel, p.id, v, u);
  }

  lemma SettleNone(s: Sender, channel: Channel, session: S.State, id: nat, later: nat, queued: bool, u: Unit)
    requires S.Valid(session) && NoneFor(s, channel, session.pending, u)
    ensures NoneFor(s, channel, Settle(session, id, later, queued).pending, u)
  {
    var good := NotFor(s, channel, u);
    assert S.AllHold(session.pending, good);
    S.AcknowledgeContents(session, id, later, good);
    S.NoteSentContents(session, id, later, good);
  }

  lemma PostGone(s: Sender, channel: Channel, session: S.State, p: S.Pending, v: Unit, later: nat, room: bool, u: Unit)
    requires LinksOk(s) && S.Valid(session) && Offers(s, channel, session, p, v) && Gone(s, u) && u != v
    ensures Gone(Post(s, channel, session, p, v, later, room).0, u)
  {
    IssueGone(s, channel, session, p, v, u);
    var s1 := Issued(s.With(channel, session), channel, p.id, v);
    var m := Message(channel, p.kind, p.encoded);
    QueueGone(s1, m, Tracked(channel, p.id), room, u);
    var (s2, rc) := QueueFrame(s1, m, Tracked(channel, p.id), room);
    SettleNone(s2, channel, session, p.id, later, rc.Ok?, u);
    WithGone(s2, channel, Settle(session, p.id, later, rc.Ok?), u);
  }

  lemma PostedUnitGone(s: Sender, rec: Record, i: nat, session: S.State, p: S.Pending, later: nat, room: bool, u: Unit)
    requires Sending(s, rec, i) && i < rec.Units() && rec.channel.IsReliable() && S.Valid(session)
    requires p.id == s.Session(rec.channel).nextId && session.nextId == p.id + 1
    requires p.kind == rec.FrameKind() && p.encoded == EncodeNumbered(p.id, rec.Body(i))
    requires AddsOnly(s.Session(rec.channel), session, p)
    requires Gone(s, u) && u != Unit(|s.sends| - 1, i)
    ensures Gone(Post(s, rec.channel, session, p, Unit(|s.sends| - 1, i), later, room).0, u)
  {
    MakesOffer(s, rec, i, session, p);
    PostGone(s, rec.channel, session, p, Unit(|s.sends| - 1, i), later, room, u);
  }

  lemma SameQueueGone(s: Sender, channel: Channel, session: S.State, u: Unit)
    requires Gone(s, u) && channel.IsReliable() && session.pending == s.Session(channel).pending
    ensures Gone(s.With(channel, session), u)
  {
    WithGone(s, channel, session, u);
  }

  lemma SendReliableGone(s: Sender, rec: Record, i: nat, env: Env, s': Sender, u: Unit)
    requires Sending(s, rec, i) && i < rec.Units() && rec.channel.IsReliable()
    requires |rec.Body(i)| <= MAX_RELIABLE_MESSAGE_BYTES
    requires s' == SendReliable(s, rec.channel, rec.FrameKind(), rec.Body(i), Unit(|s.sends| - 1, i), env).0
    requires Gone(s, u) && u != Unit(|s.sends| - 1, i)
    ensures Gone(s', u)
  {
    var kind, data, now := rec.FrameKind(), rec.Body(i), env.clock(2 * i);
    S.EnqueueContents(s.Session(rec.channel), kind, data, env.priority, env.lifetime, now);
    S.EnqueueKeepsValid(s.Session(rec.channel), kind, data, env.priority, env.lifetime, now);
    var (session, r) := S.EnqueueMessage(s.Session(rec.channel), kind, data, env.priority, env.lifetime, now);
    if r.Failure? {
      SameQueueGone(s, rec.channel, session, u);
    } else {
      PostedUnitGone(s, rec, i, session, r.value, env.clock(2 * i + 1), env.room(i), u);
    }
  }

  lemma SendUnitGone(s: Sender, rec: Record, i: nat, env: Env, u: Unit)
    requires Sending(s, rec, i) && i < rec.Units() && Gone(s, u) && u != Unit(|s.sends| - 1, i)
    ensures Gone(SendUnit(s, rec, i, env).0, u)
  {
    UnitFits(rec, i, 0);
    if rec.channel.IsReliable() {
      SendReliableGone(s, rec, i, env, SendUnit(s, rec, i, env).0, u);
    } else {
      QueueGone(s, rec.FreeFrame(i), Free(Unit(|s.sends| - 1, i)), env.room(i), u);
    }
  }

  lemma {:induction false} SendUnitsGone(s: Sender, rec: Record, i: nat, env: Env, s': Sender, u: Unit)
    requires Sending(s, rec, i) && s' == SendUnits(s, rec, i, env).0 && Gone(s, u)
    requires u.send != |s.sends| - 1 || u.index < i
    ensures Gone(s', u)
    decreases rec.Units() - i
  {
    if i < rec.Units() {
      SendUnitGone(s, rec, i, env, u);
      SendUnitLinks(s, rec, i, env);
      SendUnitKeeps(s, rec, i, env);
      var (s1, rc) := SendUnit(s, rec, i, env);
      if rc.Ok? { SendUnitsGone(s1, rec, i + 1, env, s', u); }
    }
  }

  lemma SendGone(s: Sender, channel: Channel, kind: byte, payload: seq<byte>, env: Env, u: Unit)
    requires LinksOk(s) && SessionsValid(s) && BookOk(s) && Gone(s, u) && u.send < |s.sends|
    ensures Gone(Send(s, channel, kind, payload, env).0, u)
  {
    if channel.IsApplication() && |payload| < U16_LIMIT {
      var rec := RecordFor(s, channel, kind, payload);
      BeginBook(s, channel, kind, payload);
      BeginLinks(s, rec);
      assert Sending(Begin(s, rec), rec, 0) && Gone(Begin(s, rec), u);
      SendUnitsGone(Begin(s, rec), rec, 0, env, SendUnits(Begin(s, rec), rec, 0, env).0, u);
    }
  }

  // ------------------------------------------------------- a failed send leaves a unit behind

  lemma AckRemoves(session: S.State, id: nat, now: nat)
    requires S.Valid(session)
    ensures forall k | 0 <= k < |S.AcknowledgeMessage(session, id, now).0.pending| ::
      S.AcknowledgeMessage(session, id, now).0.pending[k].id != id
  {
    var q, q' := session.pending, S.AcknowledgeMessage(session, id, now).0.pending;
    var at := S.Find(q, id);
    forall k | 0 <= k < |q'| ensures q'[k].id != id {
      if at < |q| && at <= k {
        assert q'[k] == q[k + 1];
        assert S.Before(q[at], q[k + 1]);
      }
    }
  }

  // Only one id was ever issued for the unit, it is on no packet, and its session no longer holds it.
  lemma TakenBackGone(s: Sender, s': Sender, channel: Channel, id: nat, u: Unit)
    requires LinksOk(s) && channel.IsReliable() && (channel, id) !in s.issued && Unused(s, u)
    requires s'.issued == s.issued[(channel, id) := u] && s'.wire == s.wire
    requires forall k | 0 <= k < |s'.Session(channel).pending| :: s'.Session(channel).pending[k].id != id
    ensures Gone(s', u)
  {
    forall n | n in s'.wire ensures !Bears(s', s'.wire[n].tag, u) { assert ParcelOk(s, s.wire[n]); }
    forall i | 0 <= i < |s'.reliable.pending| ensures !IsFor(s', Reliable, s'.reliable.pending[i].id, u) {
      if channel.Reliable? { assert s'.Session(channel).pending[i].id != id; }
    }
    forall i | 0 <= i < |s'.ordered.pending| ensures !IsFor(s', ReliableOrdered, s'.ordered.pending[i].id, u) {
      if channel.ReliableOrdered? { assert s'.Session(channel).pending[i].id != id; }
    }
  }

  // The packet found no room: the id was issued, and then its message was taken back.
  lemma RefusedPostGone(s: Sender, channel: Channel, session: S.State, p: S.Pending, u: Unit, later: nat, s': Sender)
    requires LinksOk(s) && S.Valid(session) && Offers(s, channel, session, p, u)
    requires (s', Err(QueueFull)) == Post(s, channel, session, p, u, later, false)
    ensures Gone(s', u)
  {
    NotIssuedYet(s, channel, p.id);
    AckRemoves(session, p.id, later);
    TakenBackGone(s, s', channel, p.id, u);
  }

  lemma FailedReliableGone(s: Sender, rec: Record, i: nat, env: Env, s': Sender, rc: Status)
    requires Sending(s, rec, i) && i < rec.Units() && rec.channel.IsReliable() && rc.Err?
    requires |rec.Body(i)| <= MAX_RELIABLE_MESSAGE_BYTES
    requires (s', rc) == SendReliable(s, rec.channel, rec.FrameKind(), rec.Body(i), Unit(|s.sends| - 1, i), env)
    ensures Gone(s', Unit(|s.sends| - 1, i))
  {
    var channel, u := rec.channel, Unit(|s.sends| - 1, i);
    var kind, data, now := rec.FrameKind(), rec.Body(i), env.clock(2 * i);
    S.EnqueueContents(s.Session(channel), kind, data, env.priority, env.lifetime, now);
    S.EnqueueKeepsValid(s.Session(channel), kind, data, env.priority, env.lifetime, now);
    var (session, r) := S.EnqueueMessage(s.Session(channel), kind, data, env.priority, env.lifetime, now);
    SendReliableParts(s, channel, kind, data, u, env, session, r);
    if r.Failure? {
      assert Unused(s, u);
      UnusedIsGone(s, u);
      SameQueueGone(s, channel, session, u);
    } else {
      UnitFits(rec, i, s.Session(channel).nextId);
      MakesOffer(s, rec, i, session, r.value);
      RefusedPostGone(s, channel, session, r.value, u, env.clock(2 * i + 1), s');
    }
  }

  // A unit that fails is left behind.
  lemma FailedUnitGone(s: Sender, rec: Record, i: nat, env: Env)
    requires Sending(s, rec, i) && i < rec.Units() && rec.channel.IsReliable() && SendUnit(s, rec, i, env).1.Err?
    ensures Gone(SendUnit(s, rec, i, env).0, Unit(|s.sends| - 1, i))
  {
    UnitFits(rec, i, 0);
    var (s', rc) := SendUnit(s, rec, i, env);
    FailedReliableGone(s, rec, i, env, s', rc);
  }

  // ------------------------------------------------------------- when a send fails, exactly

  // What unit i takes of the session's byte budget.
  ghost function Cost(rec: Record, i: nat): nat
    requires rec.WellFormed() && i < rec.Units()
  {
    8 + |rec.Body(i)|
  }

  ghost function CostOf(rec: Record, i: nat, k: nat): nat
    requires rec.WellFormed() && i <= k <= rec.Units()
    decreases k - i
  {
    if i == k then 0 else Cost(rec, i) + CostOf(rec, i + 1, k)
  }

  // Unit k, with all of them from i on before it, finds room in the packet queue and in the session.
  ghost predicate AffordsAt(session: S.State, rec: Record, i: nat, room: nat -> bool, k: nat)
    requires rec.WellFormed() && i <= k < rec.Units()
  {
    && room(k) && |session.pending| + (k - i) < session.cfg.maxPendingMessages
    && session.pendingBytes + CostOf(rec, i, k + 1) <= session.cfg.maxPendingBytes
  }

  ghost predicate Affords(session: S.State, rec: Record, i: nat, room: nat -> bool)
    requires rec.WellFormed()
  {
    forall k: nat | i <= k < rec.Units() :: AffordsAt(session, rec, i, room, k)
  }

  // The session after one more message of this size was enqueued and sent.
  ghost predicate OneMore(session: S.State, session': S.State, bytes: nat) {
    && session'.cfg == session.cfg && |session'.pending| == |session.pending| + 1
    && session'.pendingBytes == session.pendingBytes + bytes
  }

  lemma AffordsShift(session: S.State, session': S.State, rec: Record, i: nat, room: nat -> bool, k: nat)
    requires rec.WellFormed() && i < k < rec.Units() && OneMore(session, session', Cost(rec, i))
    ensures AffordsAt(session, rec, i, room, k) <==> AffordsAt(session', rec, i + 1, room, k)
  {
    var all, rest := CostOf(rec, i, k + 1), CostOf(rec, i + 1, k + 1);
    assert all == Cost(rec, i) + rest;
    assert session'.pendingBytes + rest == session.pendingBytes + all;
    assert |session'.pending| + (k - (i + 1)) == |session.pending| + (k - i);
  }

  lemma AffordsStep(session: S.State, session': S.State, rec: Record, i: nat, room: nat -> bool)
    requires rec.WellFormed() && i < rec.Units() && OneMore(session, session', Cost(rec, i))
    ensures Affords(session, rec, i, room) <==>
      AffordsAt(session, rec, i, room, i) && Affords(session', rec, i + 1, room)
  {
    if Affords(session, rec, i, room) {
      assert AffordsAt(session, rec, i, room, i);
      var next := i + 1;
      forall k: nat | next <= k < rec.Units() ensures AffordsAt(session', rec, next, room, k) {
        AffordsShift(session, session', rec, i, room, k);
      }
    }
    if AffordsAt(session, rec, i, room, i) && Affords(session', rec, i + 1, room) {
      forall k: nat | i <= k < rec.Units() ensures AffordsAt(session, rec, i, room, k) {
        if k > i { AffordsShift(session, session', rec, i, room, k); }
      }
    }
  }

  lemma NoteSentSizes(session: S.State, id: nat, now: nat)
    ensures var session' := S.NoteSentMessage(session, id, now).0;
      && session'.cfg == session.cfg && |session'.pending| == |session.pending|
      && session'.pendingBytes == session.pendingBytes
  {
  }

  lemma EnqueueSizes(session: S.State, kind: byte, data: seq<byte>, priority: Priority, lifetime: nat, now: nat)
    ensures var (session', r) := S.EnqueueMessage(session, kind, data, priority, lifetime, now);
      r.Success? ==> OneMore(session, session', 8 + |data|)
  {
  }

  // One unit goes out exactly when there is room for it in both places.
  lemma UnitSentIff(s: Sender, rec: Record, i: nat, env: Env)
    requires SessionsValid(s) && s.sends != [] && rec.WellFormed() && i < rec.Units() && rec.channel.IsReliable()
    ensures var (s', rc) := SendUnit(s, rec, i, env);
      var session := s.Session(rec.channel);
      && (rc.Ok? <==> AffordsAt(session, rec, i, env.room, i))
      && (rc.Ok? ==> OneMore(session, s'.Session(rec.channel), Cost(rec, i)))
  {
    var channel, u := rec.channel, Unit(|s.sends| - 1, i);
    var kind, data, now := rec.FrameKind(), rec.Body(i), env.clock(2 * i);
    var before := s.Session(channel);
    UnitFits(rec, i, before.nextId);
    S.EnqueueAccepts(before, kind, data, env.priority, env.lifetime, now);
    S.EnqueueContents(before, kind, data, env.priority, env.lifetime, now);
    S.EnqueueKeepsValid(before, kind, data, env.priority, env.lifetime, now);
    EnqueueSizes(before, kind, data, env.priority, env.lifetime, now);
    var (session, r) := S.EnqueueMessage(before, kind, data, env.priority, env.lifetime, now);
    SendReliableParts(s, channel, kind, data, u, env, session, r);
    TrackedUnit(s, rec, i, env, kind, data, u);
    assert CostOf(rec, i, i + 1) == Cost(rec, i);
    if r.Success? { PostedIff(s, channel, session, r.value, u, env.clock(2 * i + 1), env.room(i)); }
  }

  lemma PostedIff(s: Sender, channel: Channel, session: S.State, p: S.Pending, u: Unit, later: nat, room: bool)
    requires S.Valid(session) && channel.IsReliable()
    requires |p.encoded| <= MAX_MESSAGE_BYTES
    requires |EncodeMessage(Message(channel, p.kind, p.encoded))| <= MAX_ENCRYPTED_PLAINTEXT_BYTES
    ensures var (s', rc) := Post(s, channel, session, p, u, later, room);
      && (rc.Ok? <==> room)
      && (room ==> s'.Session(channel).cfg == session.cfg && |s'.Session(channel).pending| == |session.pending|
                   && s'.Session(channel).pendingBytes == session.pendingBytes)
  {
    NoteSentSizes(session, p.id, later);
  }

  // One round of the loop over the units of a reliable message: what it leaves behind when it fails,
  lemma NextUnit(s: Sender, rec: Record, i: nat, env: Env, goal: (Sender, Status), last: Unit)
    returns (s1: Sender, rc1: Status)
    requires Sending(s, rec, i) && i < rec.Units() && rec.channel.IsReliable() && goal == SendUnits(s, rec, i, env)
    requires last == Unit(|s.sends| - 1, rec.Units() - 1)
    ensures Sending(s1, rec, i + 1) && s1.sends == s.sends
    ensures if rc1.Err? then goal == (s1, rc1) && Gone(s1, last) else goal == SendUnits(s1, rec, i + 1, env)
  {
    s1, rc1 := SendUnit(s, rec, i, env).0, SendUnit(s, rec, i, env).1;
    SendUnitLinks(s, rec, i, env);
    SendUnitsStep(s, rec, i, env, s1, rc1);
    if rc1.Err? {
      if i == last.index {
        FailedUnitGone(s, rec, i, env);
      } else {
        assert Unused(s1, last);
        UnusedIsGone(s1, last);
      }
    }
  }

  // and when it does not.
  lemma NextAffords(s: Sender, rec: Record, i: nat, env: Env, goal: (Sender, Status)) returns (s1: Sender, rc1: Status)
    requires Sending(s, rec, i) && i < rec.Units() && rec.channel.IsReliable() && goal == SendUnits(s, rec, i, env)
    ensures Sending(s1, rec, i + 1)
    ensures if rc1.Err? then goal == (s1, rc1) else goal == SendUnits(s1, rec, i + 1, env)
    ensures rc1.Ok? <==> AffordsAt(s.Session(rec.channel), rec, i, env.room, i)
    ensures rc1.Ok? ==> OneMore(s.Session(rec.channel), s1.Session(rec.channel), Cost(rec, i))
  {
    s1, rc1 := SendUnit(s, rec, i, env).0, SendUnit(s, rec, i, env).1;
    SendUnitLinks(s, rec, i, env);
    SendUnitsStep(s, rec, i, env, s1, rc1);
    UnitSentIff(s, rec, i, env);
  }

  // The loop in the abstract: from each good state a round goes on to the next, or stops in a bad one.
  ghost predicate Round(loop: (Sender, nat) -> (Sender, Status), good: (Sender, nat) -> bool, bad: Sender -> bool,
                        s: Sender, i: nat, s1: Sender, rc: Status)
  {
    good(s1, i + 1) && if rc.Err? then loop(s, i) == (s1, rc) && bad(s1) else loop(s, i) == loop(s1, i + 1)
  }

  ghost predicate Rounds(loop: (Sender, nat) -> (Sender, Status), good: (Sender, nat) -> bool, bad: Sender -> bool,
                         n: nat) {
    && (forall s, i: nat | good(s, i) && i < n :: exists s1, rc :: Round(loop, good, bad, s, i, s1, rc))
    && (forall s | good(s, n) :: loop(s, n) == (s, Ok))
  }

  lemma {:induction false} LoopEndsBadly(loop: (Sender, nat) -> (Sender, Status), good: (Sender, nat) -> bool,
                                         bad: Sender -> bool, n: nat, s: Sender, i: nat)
    requires Rounds(loop, good, bad, n) && i <= n && good(s, i) && loop(s, i).1.Err?
    ensures bad(loop(s, i).0)
    decreases n - i
  {
    if i < n {
      var s1, rc :| Round(loop, good, bad, s, i, s1, rc);
      if rc.Ok? { LoopEndsBadly(loop, good, bad, n, s1, i + 1); }
    }
  }

  ghost function Loop(rec: Record, env: Env): (Sender, nat) -> (Sender, Status) {
    (x: Sender, k: nat) => if Sending(x, rec, k) then SendUnits(x, rec, k, env) else (x, Ok)
  }

  ghost function OnTheWay(rec: Record, sends: seq<Record>): (Sender, nat) -> bool {
    (x: Sender, k: nat) => Sending(x, rec, k) && x.sends == sends
  }

  ghost function Lost(u: Unit): Sender -> bool { (x: Sender) => Gone(x, u) }

  lemma LoopIs(x: Sender, rec: Record, k: nat, env: Env)
    requires Sending(x, rec, k)
    ensures Loop(rec, env)(x, k) == SendUnits(x, rec, k, env)
  {
  }

  lemma IsRound(loop: (Sender, nat) -> (Sender, Status), good: (Sender, nat) -> bool, bad: Sender -> bool, s: Sender,
                i: nat, s1: Sender, rc: Status)
    requires good(s1, i + 1)
    requires rc.Err? ==> loop(s, i) == (s1, rc) && bad(s1)
    requires rc.Ok? ==> loop(s, i) == loop(s1, i + 1)
    ensures Round(loop, good, bad, s, i, s1, rc)
  {
  }

  lemma LostIs(u: Unit, x: Sender)
    ensures Lost(u)(x) == Gone(x, u)
  {
  }

  lemma LoopNext(x: Sender, rec: Record, k: nat, env: Env, sends: seq<Record>, last: Unit)
    returns (s1: Sender, rc: Status)
    requires Sending(x, rec, k) && x.sends == sends && k < rec.Units() && rec.channel.IsReliable()
    requires last == Unit(|sends| - 1, rec.Units() - 1)
    ensures OnTheWay(rec, sends)(s1, k + 1)
    ensures rc.Err? ==> Loop(rec, env)(x, k) == (s1, rc) && Lost(last)(s1)
    ensures rc.Ok? ==> Loop(rec, env)(x, k) == Loop(rec, env)(s1, k + 1)
  {
    LoopIs(x, rec, k, env);
    var goal := Loop(rec, env)(x, k);
    s1, rc := NextUnit(x, rec, k, env, goal, last);
    LoopIs(s1, rec, k + 1, env);
    LostIs(last, s1);
  }

  lemma SendRound(x: Sender, rec: Record, k: nat, env: Env, sends: seq<Record>, last: Unit)
    requires Sending(x, rec, k) && x.sends == sends && k < rec.Units() && rec.channel.IsReliable()
    requires last == Unit(|sends| - 1, rec.Units() - 1)
    ensures exists s1, rc :: Round(Loop(rec, env), OnTheWay(rec, sends), Lost(last), x, k, s1, rc)
  {
    var s1, rc := LoopNext(x, rec, k, env, sends, last);
    IsRound(Loop(rec, env), OnTheWay(rec, sends), Lost(last), x, k, s1, rc);
  }

  lemma SendRounds(rec: Record, env: Env, sends: seq<Record>, last: Unit)
    requires rec.channel.IsReliable() && sends != [] && rec.Units() > 0 && last == Unit(|sends| - 1, rec.Units() - 1)
    ensures Rounds(Loop(rec, env), OnTheWay(rec, sends), Lost(last), rec.Units())
  {
    forall x, k: nat | OnTheWay(rec, sends)(x, k) && k < rec.Units()
      ensures exists s1, rc :: Round(Loop(rec, env), OnTheWay(rec, sends), Lost(last), x, k, s1, rc)
    {
      SendRound(x, rec, k, env, sends, last);
    }
  }

  // A reliable message that fails anywhere leaves its last unit behind.
  lemma LastUnitGone(s: Sender, rec: Record, env: Env, goal: (Sender, Status), last: Unit)
    requires Sending(s, rec, 0) && rec.channel.IsReliable() && goal == Loop(rec, env)(s, 0) && goal.1.Err?
    requires last == Unit(|s.sends| - 1, rec.Units() - 1)
    ensures Gone(goal.0, last)
  {
    SendRounds(rec, env, s.sends, last);
    LoopEndsBadly(Loop(rec, env), OnTheWay(rec, s.sends), Lost(last), rec.Units(), s, 0);
    assert Lost(last)(goal.0);
  }

  // A reliable message goes out whole exactly when every one of its units finds room.
  lemma {:induction false} UnitsSentIff(s: Sender, rec: Record, i: nat, env: Env, goal: (Sender, Status))
    requires Sending(s, rec, i) && rec.channel.IsReliable() && goal == SendUnits(s, rec, i, env)
    ensures goal.1.Ok? <==> Affords(s.Session(rec.channel), rec, i, env.room)
    decreases rec.Units() - i
  {
    if i < rec.Units() {
      var s1, rc1 := NextAffords(s, rec, i, env, goal);
      if rc1.Ok? {
        UnitsSentIff(s1, rec, i + 1, env, goal);
        AffordsStep(s.Session(rec.channel), s1.Session(rec.channel), rec, i, env.room);
      } else {
        assert !AffordsAt(s.Session(rec.channel), rec, i, env.room, i);
      }
    }
  }

  // The three fragmentation guards of send(), which come before any number is taken.
  predicate Passes(cfg: FragmentationConfig, channel: Channel, payload: seq<byte>) {
    && |payload| < U16_LIMIT
    && (|payload| > channel.MaxInline() ==>
          && cfg.enabled && |payload| <= cfg.maxReassembledMessageBytes
          && 0 < Count(|payload|) <= cfg.maxFragmentsPerMessage)
  }

  // The message past the guards, from its first unit on.
  lemma OrderedUnitsFailIff(s: Sender, rec: Record, env: Env, goal: (Sender, Status))
    requires Sending(s, rec, 0) && rec.channel.ReliableOrdered? && goal == SendUnits(s, rec, 0, env)
    ensures SameBook(s, goal.0)
    ensures goal.1.Err? <==> !Affords(s.ordered, rec, 0, env.room)
    ensures goal.1.Err? ==> Gone(goal.0, Unit(|s.sends| - 1, rec.Units() - 1))
  {
    SendUnitsLinks(s, rec, 0, env, goal.0);
    UnitsSentIff(s, rec, 0, env, goal);
    if goal.1.Err? { LastUnitGone(s, rec, env, goal, Unit(|s.sends| - 1, rec.Units() - 1)); }
  }

  // send() on the ordered channel takes a number exactly when the guards let it pass, and then fails, with the
  // number spent and its last unit left behind, exactly when some unit finds no room.
  lemma OrderedSendFailsIff(s: Sender, kind: byte, payload: seq<byte>, env: Env, rec: Record, goal: (Sender, Status))
    requires LinksOk(s) && SessionsValid(s) && BookOk(s) && rec == RecordFor(s, ReliableOrdered, kind, payload)
    requires goal == Send(s, ReliableOrdered, kind, payload, env)
    ensures !Passes(s.cfg, ReliableOrdered, payload) ==> goal == (s, Err(TooLarge))
    ensures Passes(s.cfg, ReliableOrdered, payload) ==>
      && rec.WellFormed() && goal.0.nextOrdered == s.nextOrdered + 1 && goal.0.sends == s.sends + [rec]
      && (goal.1.Err? <==> !Affords(s.ordered, rec, 0, env.room))
      && (goal.1.Err? ==> Gone(goal.0, Unit(|s.sends|, rec.Units() - 1)))
  {
    SendStarts(s, ReliableOrdered, kind, payload, env, rec);
    if Passes(s.cfg, ReliableOrdered, payload) {
      assert goal == SendUnits(Begin(s, rec), rec, 0, env);
      OrderedUnitsFailIff(Begin(s, rec), rec, env, goal);
    }
  }

  // ------------------------------------------------------ what a failing send leaves behind

  lemma SendStarts(s: Sender, channel: Channel, kind: byte, payload: seq<byte>, env: Env, rec: Record)
    requires LinksOk(s) && SessionsValid(s) && BookOk(s) && channel.IsApplication()
    requires rec == RecordFor(s, channel, kind, payload)
    ensures !Passes(s.cfg, channel, payload) ==> Send(s, channel, kind, payload, env) == (s, Err(TooLarge))
    ensures Passes(s.cfg, channel, payload) ==>
      && Sending(Begin(s, rec), rec, 0)
      && Send(s, channel, kind, payload, env) == SendUnits(Begin(s, rec), rec, 0, env)
  {
    if Passes(s.cfg, channel, payload) {
      BeginBook(s, channel, kind, payload);
      BeginLinks(s, rec);
    }
  }

  ghost predicate AllRoom(rec: Record, i: nat, room: nat -> bool) { forall k: nat | i <= k < rec.Units() :: room(k) }

  // A message outside the reliable channels goes out whole exactly when the packet queue has room for every unit.
  lemma {:induction false} FreeUnitsSentIff(s: Sender, rec: Record, i: nat, env: Env, goal: (Sender, Status))
    requires Sending(s, rec, i) && !rec.channel.IsReliable() && goal == SendUnits(s, rec, i, env)
    ensures goal.1.Ok? <==> AllRoom(rec, i, env.room)
    decreases rec.Units() - i
  {
    if i < rec.Units() {
      var s1, rc := SendUnit(s, rec, i, env).0, SendUnit(s, rec, i, env).1;
      UnitFits(rec, i, 0);
      SendUnitLinks(s, rec, i, env);
      SendUnitsStep(s, rec, i, env, s1, rc);
      assert rc.Ok? <==> env.room(i);
      if rc.Ok? { FreeUnitsSentIff(s1, rec, i + 1, env, goal); }
    }
  }

  // Some unit of the message finds no room.
  ghost predicate Short(s: Sender, rec: Record, room: nat -> bool)
    requires rec.WellFormed()
  {
    if rec.channel.IsReliable() then !Affords(s.Session(rec.channel), rec, 0, room) else !AllRoom(rec, 0, room)
  }

  lemma UnitsFailIff(s: Sender, rec: Record, env: Env, goal: (Sender, Status))
    requires Sending(s, rec, 0) && goal == SendUnits(s, rec, 0, env)
    ensures SameBook(s, goal.0) && (goal.1.Err? <==> Short(s, rec, env.room))
  {
    SendUnitsLinks(s, rec, 0, env, goal.0);
    if rec.channel.IsReliable() {
      UnitsSentIff(s, rec, 0, env, goal);
    } else {
      FreeUnitsSentIff(s, rec, 0, env, goal);
    }
  }

  // send() on any channel: it changes nothing if and only if a guard turns it away; past the guards the message is
  // recorded and has its numbers, whether or not the send then fails, which it does if and only if some unit finds no
  // room.
  lemma SendFailsIff(s: Sender, channel: Channel, kind: byte, payload: seq<byte>, env: Env, rec: Record,
                     goal: (Sender, Status))
    requires LinksOk(s) && SessionsValid(s) && BookOk(s) && channel.IsApplication()
    requires rec == RecordFor(s, channel, kind, payload) && goal == Send(s, channel, kind, payload, env)
    ensures !Passes(s.cfg, channel, payload) ==> goal == (s, Err(TooLarge))
    ensures Passes(s.cfg, channel, payload) ==>
      && rec.WellFormed() && goal.0.sends == s.sends + [rec]
      && goal.0.nextOrdered == s.nextOrdered + (if channel.ReliableOrdered? then 1 else 0)
      && goal.0.nextSequenced == s.nextSequenced + (if channel.SequencedUnreliable? then 1 else 0)
      && goal.0.nextFragment == s.nextFragment + (if rec.Fragmented() then 1 else 0)
      && (goal.1.Err? <==> Short(s, rec, env.room))
  {
    SendStarts(s, channel, kind, payload, env, rec);
    if Passes(s.cfg, channel, payload) { UnitsFailIff(Begin(s, rec), rec, env, goal); }
  }

  // An instance: the empty message, sent while the packet queue is full.
  lemma FullQueueSpendsNumber(s: Sender, kind: byte, env: Env, goal: (Sender, Status))
    requires LinksOk(s) && SessionsValid(s) && BookOk(s) && !env.room(0)
    requires goal == Send(s, ReliableOrdered, kind, [], env)
    ensures goal.1.Err? && goal.0.nextOrdered == s.nextOrdered + 1 && Gone(goal.0, Unit(|s.sends|, 0))
  {
    var rec := RecordFor(s, ReliableOrdered, kind, []);
    OrderedSendFailsIff(s, kind, [], env, rec, goal);
    assert !AffordsAt(s.ordered, rec, 0, env.room, 0);
  }
}
