// Whole runs of a reliable session: where every message ends up, and when it is sent again.
module Retransmission {
  import opened Config
  import opened Session

  ghost function Doubled(r0: nat, k: nat): nat { if k == 0 then r0 else 2 * Doubled(r0, k - 1) }

  // min(max_rto, r0 * 2^k)
  ghost function Interval(cfg: ReliabilityConfig, r0: nat, k: nat): nat { Min(cfg.maxRtoMs, Doubled(r0, k)) }

  // One step of the back-off, rule 5.5 of section 5 of RFC 6298.
  lemma IntervalDoubles(cfg: ReliabilityConfig, r0: nat, k: nat)
    requires cfg.Valid() && 2 * cfg.maxRtoMs < U64_LIMIT && cfg.minRtoMs <= r0 <= cfg.maxRtoMs
    ensures BackedOff(cfg, Interval(cfg, r0, k)) == Interval(cfg, r0, k + 1)
  {
    DoubledGrows(r0, k);
    W64Small(Interval(cfg, r0, k) * 2);
  }

  lemma {:induction false} DoubledGrows(r0: nat, k: nat)
    ensures Doubled(r0, k) >= r0
  {
    if k > 0 { DoubledGrows(r0, k - 1); }
  }

  // ----------------------------------------------------------------------- traces

  // A session together with its history: the ids ever enqueued and where they went, the times each
  // message was recorded as sent, its RTO when it was enqueued, and the round-trip times measured.
  datatype Trace = Trace(
    s: State, clock: nat, enqueued: set<nat>, acked: set<nat>, expired: set<nat>,
    sends: map<nat, seq<nat>>, rto0: map<nat, nat>, samples: seq<nat>)

  datatype Op =
    | Send(kind: byte, data: seq<byte>, priority: Priority, lifetime: nat, now: nat, later: nat, packetQueued: bool)
    | Ack(id: nat, now: nat)
    | Expire(now: nat)
    | Resend(now: nat, queued: nat -> bool)

  ghost function Start(cfg: ReliabilityConfig): Trace { Trace(Initial(cfg), 0, {}, {}, {}, map[], map[], []) }

  // The clock is monotone and non-zero.
  ghost predicate Legal(t: Trace, op: Op) {
    match op
    case Send(_, data, _, _, now, later, _) => 0 < now <= later && t.clock <= now && |data| < U16_LIMIT
    case Ack(_, now) => 0 < now && t.clock <= now
    case Expire(now) => 0 < now && t.clock <= now
    case Resend(now, _) => 0 < now && t.clock <= now
  }

  ghost function Ids(q: seq<Pending>): set<nat> { set i | 0 <= i < |q| :: q[i].id }

  ghost function Record(sends: map<nat, seq<nat>>, sent: seq<Pending>, now: nat): map<nat, seq<nat>> {
    if sent == [] then sends
    else
      var before := Record(sends, sent[..|sent| - 1], now);
      var id := sent[|sent| - 1].id;
      before[id := (if id in before then before[id] else []) + [now]]
  }

  // send_reliable_message: enqueue, then note_sent when the packet was queued, acknowledge when not.
  ghost function Submit(t: Trace, op: Op): Trace
    requires Valid(t.s) && op.Send? && |op.data| < U16_LIMIT
  {
    var (s1, r) := EnqueueMessage(t.s, op.kind, op.data, op.priority, op.lifetime, op.now);
    EnqueueKeepsValid(t.s, op.kind, op.data, op.priority, op.lifetime, op.now);
    if r.Failure? then t.(s := s1, clock := op.later)
    else Finish(Entered(t, s1, r.value.id), r.value.id, op.packetQueued, op.later)
  }

  ghost function Finish(t: Trace, id: nat, packetQueued: bool, later: nat): Trace
    requires Valid(t.s)
  {
    if packetQueued then
      var (s', ok) := NoteSentMessage(t.s, id, later);
      t.(s := s', sends := t.sends[id := if ok then [later] else []], clock := later)
    else t.(s := AcknowledgeMessage(t.s, id, later).0, acked := t.acked + {id}, clock := later)
  }

  ghost function Entered(t: Trace, s1: State, id: nat): Trace {
    t.(s := s1, enqueued := t.enqueued + {id}, sends := t.sends[id := []], rto0 := t.rto0[id := t.s.rtt.rto])
  }

  ghost function Apply(t: Trace, op: Op): Trace
    requires Valid(t.s) && Legal(t, op)
  {
    match op
    case Send(_, _, _, _, _, _, _) => Submit(t, op)
    case Ack(id, now) =>
      var (s', event) := AcknowledgeMessage(t.s, id, now);
      t.(s := s', clock := now, acked := if event.removed then t.acked + {id} else t.acked,
         samples := t.samples + if event.sample.Some? then [event.sample.value] else [])
    case Expire(now) =>
      var s' := ExpireOldMessages(t.s, now);
      t.(s := s', clock := now, expired := t.expired + (Ids(t.s.pending) - Ids(s'.pending)))
    case Resend(now, queued) =>
      var (s', sent, _) := ResendDueMessages(t.s, now, queued);
      t.(s := s', clock := now, sends := Record(t.sends, sent, now))
  }

  // The trace after a list of operations, if the clock allowed them all.
  ghost function Run(cfg: ReliabilityConfig, ops: seq<Op>): Option<Trace>
    requires Usable(cfg)
    ensures Run(cfg, ops).Some? ==> Valid(Run(cfg, ops).value.s)
  {
    if ops == [] then Some(Start(cfg))
    else
      var before := Run(cfg, ops[..|ops| - 1]);
      var op := ops[|ops| - 1];
      if before.None? || !Legal(before.value, op) then None
      else
        ApplyKeepsValid(before.value, op);
        Some(Apply(before.value, op))
  }

  ghost predicate Usable(cfg: ReliabilityConfig) {
    cfg.Valid() && cfg.maxPendingBytes + 8 + U16_LIMIT <= U32_LIMIT && 2 * cfg.maxRtoMs < U64_LIMIT
  }

  lemma ApplyKeepsValid(t: Trace, op: Op)
    requires Valid(t.s) && Legal(t, op)
    ensures Valid(Apply(t, op).s) && Apply(t, op).s.cfg == t.s.cfg
  {
    match op
    case Send(kind, data, priority, lifetime, now, later, queued) =>
      EnqueueKeepsValid(t.s, kind, data, priority, lifetime, now);
      var (s1, r) := EnqueueMessage(t.s, kind, data, priority, lifetime, now);
      if r.Success? {
        NoteSentKeepsValid(s1, r.value.id, later);
        AcknowledgeKeepsValid(s1, r.value.id, later);
      }
    case Ack(id, now) => AcknowledgeKeepsValid(t.s, id, now);
    case Expire(now) => ExpireKeepsValid(t.s, now);
    case Resend(now, queued) => ResendKeepsValid(t.s, 0, now, queued, []); ResendKeepsIds(t.s, 0, now, queued, []);
  }

  lemma {:induction false} ResendKeepsIds(s: State, k: nat, now: nat, queued: nat -> bool, sent: seq<Pending>)
    requires k <= |s.pending|
    ensures var s' := ResendFrom(s, k, now, queued, sent).0;
      && s'.cfg == s.cfg && s'.rtt == s.rtt && |s'.pending| == |s.pending|
      && forall i | 0 <= i < |s.pending| :: s'.pending[i].id == s.pending[i].id
    decreases |s.pending| - k
  {
    if k == |s.pending| {
    } else if Expired(s.pending[k], now) || Waiting(s.pending[k], now) {
      ResendKeepsIds(s, k + 1, now, queued, sent);
    } else {
      var s1 := if s.pending[k].inflight then TimeOut(s, k) else s;
      if s1.inflight < s1.cfg.maxInflightMessages && queued(k) {
        ResendKeepsIds(Launch(s1, k, now), k + 1, now, queued, sent + [s1.pending[k]]);
      }
    }
  }

  // ------------------------------------------------- every message is in one place

  // Every id that was ever enqueued is pending, acknowledged or expired, and only one of them.
  ghost predicate Partitioned(t: Trace) {
    var pending := Ids(t.s.pending);
    && t.enqueued == pending + t.acked + t.expired
    && pending !! t.acked !! t.expired
    && forall id | id in t.enqueued :: id < t.s.nextId
  }

  lemma FindIn(q: seq<Pending>, id: nat)
    ensures id in Ids(q) <==> Find(q, id) < |q|
  {
    if id in Ids(q) {
      var i :| 0 <= i < |q| && q[i].id == id;
    }
  }

  lemma RemoveIds(s: State, k: nat)
    requires Sorted(s.pending) && k < |s.pending|
    ensures Ids(s.pending[..k] + s.pending[k + 1..]) == Ids(s.pending) - {s.pending[k].id}
  {
    var q := s.pending;
    var q' := q[..k] + q[k + 1..];
    forall id ensures id in Ids(q') <==> id in Ids(q) && id != q[k].id {
      if id in Ids(q') {
        var i :| 0 <= i < |q'| && q'[i].id == id;
        var i' := if i < k then i else i + 1;
        assert q[i'].id == id;
        assert i' < k ==> Before(q[i'], q[k]);
        assert k < i' ==> Before(q[k], q[i']);
      }
      if id in Ids(q) && id != q[k].id {
        var i :| 0 <= i < |q| && q[i].id == id;
        assert q'[if i < k then i else i - 1].id == id;
      }
    }
  }

  lemma InsertIds(q: seq<Pending>, k: nat, p: Pending)
    requires k <= |q|
    ensures Ids(q[..k] + [p] + q[k..]) == Ids(q) + {p.id}
  {
    var q' := q[..k] + [p] + q[k..];
    forall id ensures id in Ids(q') <==> id in Ids(q) || id == p.id {
      if id in Ids(q) {
        var i :| 0 <= i < |q| && q[i].id == id;
        assert q'[if i < k then i else i + 1].id == id;
      }
      if id in Ids(q') {
        var i :| 0 <= i < |q'| && q'[i].id == id;
        if i != k { assert q[if i < k then i else i - 1].id == id; }
      }
      assert q'[k].id == p.id;
    }
  }

  lemma AckPartitions(t: Trace, id: nat, now: nat)
    requires Valid(t.s) && Partitioned(t)
    ensures var (s', event) := AcknowledgeMessage(t.s, id, now);
      Partitioned(t.(s := s', acked := if event.removed then t.acked + {id} else t.acked))
  {
    FindIn(t.s.pending, id);
    var k := Find(t.s.pending, id);
    if k < |t.s.pending| { RemoveIds(t.s, k); }
  }

  lemma EnterPartitions(t: Trace, kind: byte, data: seq<byte>, priority: Priority, lifetime: nat, now: nat)
    requires Valid(t.s) && Partitioned(t)
    ensures var (s1, r) := EnqueueMessage(t.s, kind, data, priority, lifetime, now);
      Partitioned(if r.Success? then Entered(t, s1, r.value.id) else t.(s := s1))
  {
    var (s1, r) := EnqueueMessage(t.s, kind, data, priority, lifetime, now);
    if r.Success? { InsertIds(t.s.pending, InsertAt(t.s.pending, priority), r.value); }
  }

  lemma LaunchIds(q: seq<Pending>, q': seq<Pending>)
    requires |q| == |q'| && forall i | 0 <= i < |q| :: q'[i].id == q[i].id
    ensures Ids(q') == Ids(q)
  {
    forall id ensures id in Ids(q') <==> id in Ids(q) {
      if id in Ids(q') {
        var i :| 0 <= i < |q'| && q'[i].id == id;
        assert q[i].id == id;
      }
      if id in Ids(q) {
        var i :| 0 <= i < |q| && q[i].id == id;
        assert q'[i].id == id;
      }
    }
  }

  lemma FinishPartitions(t: Trace, id: nat, packetQueued: bool, later: nat)
    requires Valid(t.s) && Partitioned(t) && id in Ids(t.s.pending)
    ensures Partitioned(Finish(t, id, packetQueued, later))
  {
    if packetQueued {
      LaunchIds(t.s.pending, NoteSentMessage(t.s, id, later).0.pending);
    } else {
      FindIn(t.s.pending, id);
      AckPartitions(t, id, later);
    }
  }

  lemma SubmitPartitions(t: Trace, op: Op)
    requires Valid(t.s) && op.Send? && Legal(t, op) && Partitioned(t)
    ensures Partitioned(Submit(t, op))
  {
    EnterPartitions(t, op.kind, op.data, op.priority, op.lifetime, op.now);
    EnqueueKeepsValid(t.s, op.kind, op.data, op.priority, op.lifetime, op.now);
    var (s1, r) := EnqueueMessage(t.s, op.kind, op.data, op.priority, op.lifetime, op.now);
    if r.Success? {
      InsertIds(t.s.pending, InsertAt(t.s.pending, op.priority), r.value);
      FinishPartitions(Entered(t, s1, r.value.id), r.value.id, op.packetQueued, op.later);
    }
  }

  lemma ExpirePartitions(t: Trace, now: nat)
    requires Valid(t.s) && Legal(t, Expire(now)) && Partitioned(t)
    ensures Partitioned(Apply(t, Expire(now)))
  {
    AliveFacts(t.s.cfg, t.s.nextId, t.s.pending, now);
    var q' := Alive(t.s.pending, now);
    forall id | id in Ids(q') ensures id in Ids(t.s.pending) {
      var i :| 0 <= i < |q'| && q'[i].id == id;
      assert q'[i] in t.s.pending;
    }
  }

  lemma ApplyPartitions(t: Trace, op: Op)
    requires Valid(t.s) && Legal(t, op) && Partitioned(t)
    ensures Partitioned(Apply(t, op))
  {
    match op
    case Send(_, _, _, _, _, _, _) => SubmitPartitions(t, op);
    case Ack(id, now) => AckPartitions(t, id, now);
    case Expire(now) => ExpirePartitions(t, now);
    case Resend(now, queued) =>
      ResendKeepsIds(t.s, 0, now, queued, []);
      ResendKeepsNext(t.s, 0, now, queued, []);
      LaunchIds(t.s.pending, Apply(t, op).s.pending);
  }

  lemma {:induction false} ResendKeepsNext(s: State, k: nat, now: nat, queued: nat -> bool, sent: seq<Pending>)
    requires k <= |s.pending|
    ensures ResendFrom(s, k, now, queued, sent).0.nextId == s.nextId
    decreases |s.pending| - k
  {
    if k == |s.pending| {
    } else if Expired(s.pending[k], now) || Waiting(s.pending[k], now) {
      ResendKeepsNext(s, k + 1, now, queued, sent);
    } else {
      var s1 := if s.pending[k].inflight then TimeOut(s, k) else s;
      if s1.inflight < s1.cfg.maxInflightMessages && queued(k) {
        ResendKeepsNext(Launch(s1, k, now), k + 1, now, queued, sent + [s1.pending[k]]);
      }
    }
  }

  // ------------------------------------------------------------------- back-off

  // Consecutive sends are at least min(max_rto, r0 * 2^k) apart.
  ghost predicate Spaced(cfg: ReliabilityConfig, times: seq<nat>, r0: nat) {
    forall k | 0 <= k < |times| - 1 :: times[k + 1] - times[k] >= Interval(cfg, r0, k)
  }

  // A pending message's own fields record its history, and its timer is the next interval.
  ghost predicate Timed(cfg: ReliabilityConfig, p: Pending, times: seq<nat>, r0: nat, clock: nat) {
    && cfg.minRtoMs <= r0 <= cfg.maxRtoMs
    && |times| == p.sendCount
    && (if times == [] then p.firstSendMs == 0 else 0 < p.firstSendMs == times[0])
    && (times != [] ==> 0 < p.lastSendMs == times[|times| - 1] <= clock)
    && if p.inflight then
         times != [] && p.rtoMs == Interval(cfg, r0, |times| - 1)
       else
         && p.rtoMs == Interval(cfg, r0, |times|)
         && (times != [] ==> clock - p.lastSendMs >= Interval(cfg, r0, |times| - 1))
  }

  ghost predicate Backed(cfg: ReliabilityConfig, sends: map<nat, seq<nat>>, rto0: map<nat, nat>) {
    sends.Keys == rto0.Keys && forall id | id in sends :: Spaced(cfg, sends[id], rto0[id])
  }

  ghost predicate AllTimed(s: State, sends: map<nat, seq<nat>>, rto0: map<nat, nat>, clock: nat) {
    && Backed(s.cfg, sends, rto0)
    && forall i | 0 <= i < |s.pending| ::
         s.pending[i].id in sends && Timed(s.cfg, s.pending[i], sends[s.pending[i].id], rto0[s.pending[i].id], clock)
  }

  lemma ClockTimed(s: State, sends: map<nat, seq<nat>>, rto0: map<nat, nat>, clock: nat, now: nat)
    requires AllTimed(s, sends, rto0, clock) && clock <= now
    ensures AllTimed(s, sends, rto0, now)
  {
  }

  lemma TimeOutTimed(s: State, k: nat, sends: map<nat, seq<nat>>, rto0: map<nat, nat>, now: nat)
    requires Usable(s.cfg) && AllTimed(s, sends, rto0, now) && k < |s.pending|
    requires s.pending[k].inflight && !Waiting(s.pending[k], now)
    ensures AllTimed(TimeOut(s, k), sends, rto0, now)
  {
    var id := s.pending[k].id;
    IntervalDoubles(s.cfg, rto0[id], |sends[id]| - 1);
  }

  lemma SpacedMore(cfg: ReliabilityConfig, times: seq<nat>, r0: nat, now: nat)
    requires Spaced(cfg, times, r0)
    requires times != [] ==> now - times[|times| - 1] >= Interval(cfg, r0, |times| - 1)
    ensures Spaced(cfg, times + [now], r0)
  {
    var more := times + [now];
    forall i | 0 <= i < |more| - 1 ensures more[i + 1] - more[i] >= Interval(cfg, r0, i) {
      if i < |times| - 1 { assert times[i + 1] - times[i] >= Interval(cfg, r0, i); }
    }
  }

  lemma LaunchedTimed(cfg: ReliabilityConfig, p: Pending, p': Pending, times: seq<nat>, r0: nat, now: nat)
    requires Timed(cfg, p, times, r0, now) && !p.inflight && now > 0
    requires p' == p.(firstSendMs := if p.firstSendMs == 0 then now else p.firstSendMs,
                      lastSendMs := now, sendCount := p.sendCount + 1, inflight := true)
    ensures Timed(cfg, p', times + [now], r0, now)
  {
  }

  lemma BackedMore(cfg: ReliabilityConfig, sends: map<nat, seq<nat>>, rto0: map<nat, nat>, id: nat, now: nat)
    requires Backed(cfg, sends, rto0) && id in sends
    requires sends[id] != [] ==> now - sends[id][|sends[id]| - 1] >= Interval(cfg, rto0[id], |sends[id]| - 1)
    ensures Backed(cfg, sends[id := sends[id] + [now]], rto0)
  {
    SpacedMore(cfg, sends[id], rto0[id], now);
  }

  lemma OtherIds(q: seq<Pending>, k: nat, i: nat)
    requires Sorted(q) && k < |q| && i < |q| && i != k
    ensures q[i].id != q[k].id
  {
    assert i < k ==> Before(q[i], q[k]);
    assert k < i ==> Before(q[k], q[i]);
  }

  lemma LaunchTimed(s: State, k: nat, sends: map<nat, seq<nat>>, rto0: map<nat, nat>, now: nat)
    requires Sorted(s.pending) && AllTimed(s, sends, rto0, now) && now > 0
    requires k < |s.pending| && !s.pending[k].inflight
    ensures var id := s.pending[k].id;
      AllTimed(Launch(s, k, now), sends[id := sends[id] + [now]], rto0, now)
  {
    var s', id := Launch(s, k, now), s.pending[k].id;
    var sends' := sends[id := sends[id] + [now]];
    BackedMore(s.cfg, sends, rto0, id, now);
    LaunchedTimed(s.cfg, s.pending[k], s'.pending[k], sends[id], rto0[id], now);
    forall i | 0 <= i < |s'.pending|
      ensures s'.pending[i].id in sends'
      ensures Timed(s.cfg, s'.pending[i], sends'[s'.pending[i].id], rto0[s'.pending[i].id], now)
    {
      if i != k { OtherIds(s.pending, k, i); }
    }
  }

  ghost function Due(s: State, k: nat): State
    requires k < |s.pending|
  {
    if s.pending[k].inflight then TimeOut(s, k) else s
  }

  ghost predicate Sound(s: State, sends: map<nat, seq<nat>>, rto0: map<nat, nat>, now: nat) {
    Usable(s.cfg) && Valid(s) && AllTimed(s, sends, rto0, now)
  }

  lemma DueSound(s: State, k: nat, sends: map<nat, seq<nat>>, rto0: map<nat, nat>, now: nat)
    requires Sound(s, sends, rto0, now) && k < |s.pending| && !Waiting(s.pending[k], now)
    ensures Sound(Due(s, k), sends, rto0, now) && !Due(s, k).pending[k].inflight
  {
    if s.pending[k].inflight {
      TimeOutKeepsValid(s, k);
      TimeOutTimed(s, k, sends, rto0, now);
    }
  }

  lemma LaunchSound(s: State, k: nat, sends: map<nat, seq<nat>>, rto0: map<nat, nat>, now: nat)
    requires Sound(s, sends, rto0, now) && now > 0
    requires k < |s.pending| && !s.pending[k].inflight && s.inflight < s.cfg.maxInflightMessages
    ensures s.pending[k].id in sends
    ensures var id := s.pending[k].id; Sound(Launch(s, k, now), sends[id := sends[id] + [now]], rto0, now)
  {
    LaunchKeepsValid(s, k, now);
    LaunchTimed(s, k, sends, rto0, now);
  }

  lemma {:induction false} ResendSound(s: State, k: nat, now: nat, queued: nat -> bool, sent: seq<Pending>,
                                       sends: map<nat, seq<nat>>, rto0: map<nat, nat>)
    requires k <= |s.pending| && now > 0 && Sound(s, Record(sends, sent, now), rto0, now)
    ensures var (s', sent', _) := ResendFrom(s, k, now, queued, sent);
      Sound(s', Record(sends, sent', now), rto0, now)
    decreases |s.pending| - k
  {
    if k == |s.pending| {
    } else if Expired(s.pending[k], now) || Waiting(s.pending[k], now) {
      ResendSound(s, k + 1, now, queued, sent, sends, rto0);
    } else {
      var recorded := Record(sends, sent, now);
      DueSound(s, k, recorded, rto0, now);
      var s1 := Due(s, k);
      if s1.inflight < s1.cfg.maxInflightMessages && queued(k) {
        LaunchSound(s1, k, recorded, rto0, now);
        RecordStep(sends, sent, s1.pending[k], now);
        ResendSound(Launch(s1, k, now), k + 1, now, queued, sent + [s1.pending[k]], sends, rto0);
      }
    }
  }

  lemma RecordStep(sends: map<nat, seq<nat>>, sent: seq<Pending>, p: Pending, now: nat)
    ensures var before := Record(sends, sent, now);
      p.id in before ==> Record(sends, sent + [p], now) == before[p.id := before[p.id] + [now]]
  {
    assert (sent + [p])[..|sent|] == sent;
  }

  lemma InsertTimed(s: State, k: nat, p: Pending, sends: map<nat, seq<nat>>, rto0: map<nat, nat>, clock: nat)
    requires Valid(s) && AllTimed(s, sends, rto0, clock) && k <= |s.pending|
    requires p.id == s.nextId && p.rtoMs == s.rtt.rto && p.sendCount == 0 && p.firstSendMs == 0 && !p.inflight
    ensures AllTimed(s.(pending := s.pending[..k] + [p] + s.pending[k..]),
                     sends[p.id := []], rto0[p.id := p.rtoMs], clock)
  {
    var q := s.pending[..k] + [p] + s.pending[k..];
    forall i | 0 <= i < |q|
      ensures q[i].id in sends[p.id := []]
      ensures Timed(s.cfg, q[i], sends[p.id := []][q[i].id], rto0[p.id := p.rtoMs][q[i].id], clock)
    {
      if i != k {
        var j := if i < k then i else i - 1;
        assert q[i] == s.pending[j] && Carried(s.cfg, s.nextId, s.pending[j]);
      }
    }
  }

  lemma SubsetTimed(s: State, s': State, sends: map<nat, seq<nat>>, rto0: map<nat, nat>, clock: nat)
    requires AllTimed(s, sends, rto0, clock) && s'.cfg == s.cfg
    requires forall i | 0 <= i < |s'.pending| :: s'.pending[i] in s.pending
    ensures AllTimed(s', sends, rto0, clock)
  {
  }

  lemma EnterTimed(t: Trace, op: Op)
    requires Valid(t.s) && op.Send? && Legal(t, op) && AllTimed(t.s, t.sends, t.rto0, t.clock)
    ensures var (s1, r) := EnqueueMessage(t.s, op.kind, op.data, op.priority, op.lifetime, op.now);
      var t1 := if r.Success? then Entered(t, s1, r.value.id) else t.(s := s1);
      AllTimed(s1, t1.sends, t1.rto0, op.later)
  {
    var (s1, r) := EnqueueMessage(t.s, op.kind, op.data, op.priority, op.lifetime, op.now);
    ClockTimed(t.s, t.sends, t.rto0, t.clock, op.later);
    if r.Success? {
      InsertTimed(t.s, InsertAt(t.s.pending, op.priority), r.value, t.sends, t.rto0, op.later);
    }
  }

  lemma NoteTimed(s: State, p: Pending, sends: map<nat, seq<nat>>, rto0: map<nat, nat>, now: nat)
    requires Valid(s) && AllTimed(s, sends, rto0, now) && now > 0
    requires p.id in sends && sends[p.id] == []
    requires var k := Find(s.pending, p.id); k < |s.pending| && s.pending[k] == p && !p.inflight
    ensures var (s', ok) := NoteSentMessage(s, p.id, now);
      AllTimed(s', sends[p.id := if ok then [now] else []], rto0, now)
  {
    var k := Find(s.pending, p.id);
    if s.inflight < s.cfg.maxInflightMessages {
      LaunchTimed(s, k, sends, rto0, now);
      assert sends[p.id] + [now] == [now];
    } else {
      assert sends[p.id := []] == sends;
    }
  }

  lemma FinishTimed(t: Trace, p: Pending, packetQueued: bool, later: nat)
    requires Valid(t.s) && AllTimed(t.s, t.sends, t.rto0, later) && later > 0 && p.id in t.sends && t.sends[p.id] == []
    requires var k := Find(t.s.pending, p.id); k < |t.s.pending| && t.s.pending[k] == p && !p.inflight
    ensures var t' := Finish(t, p.id, packetQueued, later); AllTimed(t'.s, t'.sends, t'.rto0, t'.clock)
  {
    if packetQueued {
      NoteTimed(t.s, p, t.sends, t.rto0, later);
    } else {
      SubsetTimed(t.s, AcknowledgeMessage(t.s, p.id, later).0, t.sends, t.rto0, later);
    }
  }

  lemma SubmitTimed(t: Trace, op: Op)
    requires Valid(t.s) && op.Send? && Legal(t, op) && AllTimed(t.s, t.sends, t.rto0, t.clock)
    ensures var t' := Submit(t, op); AllTimed(t'.s, t'.sends, t'.rto0, t'.clock)
  {
    EnterTimed(t, op);
    EnqueueKeepsValid(t.s, op.kind, op.data, op.priority, op.lifetime, op.now);
    var (s1, r) := EnqueueMessage(t.s, op.kind, op.data, op.priority, op.lifetime, op.now);
    if r.Success? {
      InsertedIdle(t.s, op, Find(s1.pending, r.value.id));
      FinishTimed(Entered(t, s1, r.value.id), r.value, op.packetQueued, op.later);
    }
  }

  // The message just enqueued is found, and it is not in flight.
  lemma InsertedIdle(s: State, op: Op, k: nat)
    requires Valid(s) && op.Send? && |op.data| < U16_LIMIT
    requires EnqueueMessage(s, op.kind, op.data, op.priority, op.lifetime, op.now).1.Success?
    requires var s1 := EnqueueMessage(s, op.kind, op.data, op.priority, op.lifetime, op.now).0;
      k == Find(s1.pending, s.nextId)
    ensures var (s1, r) := EnqueueMessage(s, op.kind, op.data, op.priority, op.lifetime, op.now);
      k < |s1.pending| && s1.pending[k] == r.value
  {
    var (s1, r) := EnqueueMessage(s, op.kind, op.data, op.priority, op.lifetime, op.now);
    var at := InsertAt(s.pending, op.priority);
    assert s1.pending[at] == r.value;
  }

  lemma ApplyTimed(t: Trace, op: Op)
    requires Usable(t.s.cfg) && Valid(t.s) && Legal(t, op)
    requires AllTimed(t.s, t.sends, t.rto0, t.clock)
    ensures var t' := Apply(t, op); AllTimed(t'.s, t'.sends, t'.rto0, t'.clock)
  {
    match op
    case Send(_, _, _, _, _, _, _) => SubmitTimed(t, op);
    case Ack(id, now) =>
      ClockTimed(t.s, t.sends, t.rto0, t.clock, now);
      SubsetTimed(t.s, Apply(t, op).s, t.sends, t.rto0, now);
    case Expire(now) =>
      ClockTimed(t.s, t.sends, t.rto0, t.clock, now);
      AliveFacts(t.s.cfg, t.s.nextId, t.s.pending, now);
      SubsetTimed(t.s, Apply(t, op).s, t.sends, t.rto0, now);
    case Resend(now, queued) =>
      ClockTimed(t.s, t.sends, t.rto0, t.clock, now);
      ResendSound(t.s, 0, now, queued, [], t.sends, t.rto0);
  }

  // A measured sample is the age of a message sent exactly once: section 3 of RFC 6298.
  lemma SampleIsKarns(t: Trace, id: nat, now: nat)
    requires Valid(t.s) && AllTimed(t.s, t.sends, t.rto0, t.clock) && t.clock <= now
    ensures var event := AcknowledgeMessage(t.s, id, now).1;
      && (event.removed <==> id in Ids(t.s.pending))
      && (event.removed ==> id in t.sends && (event.retransmitted <==> |t.sends[id]| > 1))
      && (event.sample.Some? <==> event.removed && |t.sends[id]| == 1)
      && (event.sample.Some? ==> event.sample.value == now - t.sends[id][0])
  {
    FindIn(t.s.pending, id);
  }

  // The session's RTT fields are the estimator run over the samples taken so far.
  lemma ApplyEstimates(t: Trace, op: Op)
    requires Valid(t.s) && Legal(t, op) && t.s.rtt == Estimate(t.s.cfg, t.samples)
    requires AllTimed(t.s, t.sends, t.rto0, t.clock)
    ensures var t' := Apply(t, op); t'.s.rtt == Estimate(t.s.cfg, t'.samples)
  {
    match op
    case Send(_, _, _, _, _, _, _) => SubmitEstimates(t, op);
    case Ack(id, now) => AckEstimates(t, id, now);
    case Expire(now) =>
    case Resend(now, queued) => ResendKeepsIds(t.s, 0, now, queued, []);
  }

  lemma AckEstimates(t: Trace, id: nat, now: nat)
    requires Valid(t.s) && t.s.rtt == Estimate(t.s.cfg, t.samples)
    ensures var (s', event) := AcknowledgeMessage(t.s, id, now);
      s'.rtt == Estimate(t.s.cfg, t.samples + if event.sample.Some? then [event.sample.value] else [])
  {
    var event := AcknowledgeMessage(t.s, id, now).1;
    if event.sample.Some? {
      assert (t.samples + [event.sample.value])[..|t.samples|] == t.samples;
    } else {
      assert t.samples + [] == t.samples;
    }
  }

  lemma FinishEstimates(t: Trace, p: Pending, packetQueued: bool, later: nat)
    requires Valid(t.s)
    requires var k := Find(t.s.pending, p.id); k < |t.s.pending| && t.s.pending[k] == p && p.sendCount == 0
    ensures var t' := Finish(t, p.id, packetQueued, later); t'.s.rtt == t.s.rtt && t'.samples == t.samples
  {
  }

  lemma SubmitEstimates(t: Trace, op: Op)
    requires Valid(t.s) && op.Send? && Legal(t, op)
    ensures Submit(t, op).s.rtt == t.s.rtt && Submit(t, op).samples == t.samples
  {
    EnqueueKeepsValid(t.s, op.kind, op.data, op.priority, op.lifetime, op.now);
    var (s1, r) := EnqueueMessage(t.s, op.kind, op.data, op.priority, op.lifetime, op.now);
    if r.Success? {
      InsertedIdle(t.s, op, Find(s1.pending, r.value.id));
      FinishEstimates(Entered(t, s1, r.value.id), r.value, op.packetQueued, op.later);
    }
  }

  // In every reachable state: the accounting, the limits and the queue order hold, every enqueued id is in
  // exactly one of pending, acknowledged and expired, and every message's recorded sends are spaced by the
  // doubling intervals of the RTO it was enqueued with; the RTO is the estimate over the samples taken.
  lemma {:induction false} RunIsSound(cfg: ReliabilityConfig, ops: seq<Op>)
    requires Usable(cfg) && Run(cfg, ops).Some?
    ensures var t := Run(cfg, ops).value;
      && Valid(t.s) && t.s.cfg == cfg && Partitioned(t)
      && (forall id | id in t.sends :: id in t.rto0 && Spaced(cfg, t.sends[id], t.rto0[id]))
      && AllTimed(t.s, t.sends, t.rto0, t.clock) && t.s.rtt == Estimate(cfg, t.samples)
  {
    if ops != [] {
      var before := ops[..|ops| - 1];
      RunIsSound(cfg, before);
      var t, op := Run(cfg, before).value, ops[|ops| - 1];
      ApplyKeepsValid(t, op);
      ApplyPartitions(t, op);
      ApplyTimed(t, op);
      ApplyEstimates(t, op);
    }
  }
}
