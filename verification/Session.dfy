// ReliableSession: the priority queue of unacknowledged messages, its accounting, the RTT estimator
// and retransmission.
module Session {
  import opened Config
  import opened Bytes
  import opened Codec

  datatype Pending = Pending(
    id: nat, kind: byte, encoded: seq<byte>, priority: Priority, lifetimeMs: nat, enqueuedMs: nat,
    firstSendMs: nat, lastSendMs: nat, rtoMs: nat, sendCount: nat, inflight: bool)

  datatype Rtt = Rtt(have: bool, latest: nat, srtt: nat, rttvar: nat, rto: nat)

  datatype State = State(
    cfg: ReliabilityConfig, nextId: nat, pending: seq<Pending>, pendingBytes: nat, inflight: nat,
    rtt: Rtt, lossEvents: nat)

  // ------------------------------------------------------------------ RTT estimator

  function FreshRtt(cfg: ReliabilityConfig): Rtt { Rtt(false, 0, 0, 0, cfg.initialRtoMs) }

  function UpdateRtt(cfg: ReliabilityConfig, r: Rtt, sample: nat): Rtt {
    var srtt: nat := if !r.have then sample else W64(W64(r.srtt * 7) + sample) / 8;
    var apart: nat := if r.srtt > sample then r.srtt - sample else sample - r.srtt;
    var rttvar: nat := if !r.have then Max(1, sample / 2) else W64(W64(r.rttvar * 3) + apart) / 4;
    Rtt(true, sample, srtt, rttvar, Clamp(W64(srtt + Max(1, W64(rttvar * 4))), cfg.minRtoMs, cfg.maxRtoMs))
  }

  function Estimate(cfg: ReliabilityConfig, samples: seq<nat>): Rtt {
    if samples == [] then FreshRtt(cfg)
    else UpdateRtt(cfg, Estimate(cfg, samples[..|samples| - 1]), samples[|samples| - 1])
  }

  const SAMPLE_LIMIT: nat := 0x1000_0000_0000_0000

  lemma W64Small(v: nat)
    requires v < U64_LIMIT
    ensures W64(v) == v
  {
  }

  // Without wrap-around the update is the textbook one: section 2 of RFC 6298 with shifts 3 and 2, the first sample R
  // giving SRTT = R and RTTVAR = R / 2, but at least 1.
  lemma UpdateRttExact(cfg: ReliabilityConfig, r: Rtt, sample: nat)
    requires r.srtt < SAMPLE_LIMIT && r.rttvar < SAMPLE_LIMIT && sample < SAMPLE_LIMIT
    ensures var r' := UpdateRtt(cfg, r, sample);
      && r'.have && r'.latest == sample
      && (if r.have then
            && r'.srtt == (7 * r.srtt + sample) / 8
            && r'.rttvar == (3 * r.rttvar + Max(r.srtt - sample, sample - r.srtt)) / 4
          else r'.srtt == sample && r'.rttvar == Max(1, sample / 2))
      && r'.rto == Clamp(r'.srtt + Max(1, 4 * r'.rttvar), cfg.minRtoMs, cfg.maxRtoMs)
  {
    W64Small(r.srtt * 7);
    W64Small(r.srtt * 7 + sample);
    W64Small(r.rttvar * 3);
    W64Small(r.rttvar * 3 + Max(r.srtt - sample, sample - r.srtt));
    var r' := UpdateRtt(cfg, r, sample);
    W64Small(r'.rttvar * 4);
    W64Small(r'.srtt + Max(1, r'.rttvar * 4));
  }

  // For every history of samples below 2^60 ms: SRTT lies between the extreme samples, RTTVAR is at most
  // max(1, largest), the RTO stays within its bounds, and no U64 step of the last update wrapped.
  lemma {:induction false} EstimateBounds(cfg: ReliabilityConfig, samples: seq<nat>, lo: nat, hi: nat)
    requires cfg.Valid() && hi < SAMPLE_LIMIT && forall s | s in samples :: lo <= s <= hi
    ensures var r := Estimate(cfg, samples);
      && cfg.minRtoMs <= r.rto <= cfg.maxRtoMs
      && (r.have <==> samples != [])
      && (samples != [] ==> lo <= r.srtt <= hi && r.rttvar <= Max(1, hi))
      && r.srtt * 8 < U64_LIMIT && r.srtt + Max(1, r.rttvar * 4) < U64_LIMIT
  {
    if samples != [] {
      var n := |samples| - 1;
      assert forall s | s in samples[..n] :: s in samples;
      assert samples[n] in samples;
      EstimateBounds(cfg, samples[..n], lo, hi);
      if n > 0 { UpdateRttExact(cfg, Estimate(cfg, samples[..n]), samples[n]); }
    }
  }

  // -------------------------------------------------------------------- operations

  function Initial(cfg: ReliabilityConfig): State { State(cfg, 1, [], 0, 0, FreshRtt(cfg), 0) }

  // Where a new message goes: before the first one of lower priority.
  function InsertAt(pending: seq<Pending>, priority: Priority): (k: nat)
    ensures k <= |pending|
    ensures forall i | 0 <= i < k :: pending[i].priority.Rank() >= priority.Rank()
    ensures k < |pending| ==> pending[k].priority.Rank() < priority.Rank()
  {
    if pending == [] || pending[0].priority.Rank() < priority.Rank() then 0
    else 1 + InsertAt(pending[1..], priority)
  }

  function EnqueueMessage(s: State, kind: byte, data: seq<byte>, priority: Priority, lifetime: nat, now: nat)
    : (State, Result<Pending>)
  {
    var bytes := 8 + |data|;
    if |s.pending| >= s.cfg.maxPendingMessages then (s, Failure(QueueFull))
    else if W32(s.pendingBytes + bytes) > s.cfg.maxPendingBytes then (s, Failure(QueueFull))
    else
      var id := s.nextId;
      if id == 0 || |data| > MAX_RELIABLE_MESSAGE_BYTES then (s.(nextId := id + 1), Failure(InvalidArg))
      else
        var p := NewPending(id, kind, data, priority, lifetime, now, s.rtt.rto);
        (s.(nextId := id + 1, pending := Inserted(s.pending, p), pendingBytes := s.pendingBytes + bytes), Success(p))
  }

  function NewPending(id: nat, kind: byte, data: seq<byte>, priority: Priority, lifetime: nat, now: nat, rto: nat)
    : Pending
  {
    Pending(id, kind, EncodeNumbered(id, data), priority, lifetime, now, 0, 0, rto, 0, false)
  }

  function Inserted(pending: seq<Pending>, p: Pending): seq<Pending> {
    var k := InsertAt(pending, p.priority);
    pending[..k] + [p] + pending[k..]
  }

  // The position of a message, or the queue's length.
  function Find(pending: seq<Pending>, id: nat): (k: nat)
    ensures k <= |pending|
    ensures k < |pending| ==> pending[k].id == id
    ensures forall i | 0 <= i < k :: pending[i].id != id
  {
    if pending == [] || pending[0].id == id then 0 else 1 + Find(pending[1..], id)
  }

  datatype AckEvent = AckEvent(removed: bool, sample: Option<nat>, retransmitted: bool)

  function Remove(s: State, k: nat): State
    requires k < |s.pending| && |s.pending[k].encoded| <= s.pendingBytes
  {
    var p := s.pending[k];
    s.(pending := s.pending[..k] + s.pending[k + 1..],
       pendingBytes := s.pendingBytes - |p.encoded|,
       inflight := if p.inflight && s.inflight > 0 then s.inflight - 1 else s.inflight)
  }

  function AcknowledgeMessage(s: State, id: nat, now: nat): (State, AckEvent)
    requires Accounted(s)
  {
    var k := Find(s.pending, id);
    if k == |s.pending| then (s, AckEvent(false, None, false))
    else
      var p := s.pending[k];
      BytesBound(s.pending, k);
      var timed := p.sendCount == 1 && p.firstSendMs != 0 && now >= p.firstSendMs;
      var rtt := if timed then UpdateRtt(s.cfg, s.rtt, now - p.firstSendMs) else s.rtt;
      (Remove(s, k).(rtt := rtt),
       AckEvent(true, if timed then Some(now - p.firstSendMs) else None, p.sendCount > 1))
  }

  predicate Expired(p: Pending, now: nat) { p.lifetimeMs > 0 && now >= p.enqueuedMs + p.lifetimeMs }

  function Alive(pending: seq<Pending>, now: nat): seq<Pending> {
    if pending == [] then []
    else (if Expired(pending[0], now) then [] else [pending[0]]) + Alive(pending[1..], now)
  }

  function ExpireOldMessages(s: State, now: nat): State {
    var alive := Alive(s.pending, now);
    s.(pending := alive, pendingBytes := BytesOf(alive), inflight := InflightOf(alive))
  }

  function BackedOff(cfg: ReliabilityConfig, rto: nat): nat { Min(cfg.maxRtoMs, Max(cfg.minRtoMs, W64(rto * 2))) }

  // The retransmission timer of message k ran out.
  function TimeOut(s: State, k: nat): State
    requires k < |s.pending|
  {
    var p := s.pending[k];
    s.(pending := s.pending[k := p.(inflight := false, rtoMs := BackedOff(s.cfg, p.rtoMs))],
       inflight := if s.inflight > 0 then s.inflight - 1 else 0,
       lossEvents := s.lossEvents + 1)
  }

  // Message k is handed to the packet queue.
  function Launch(s: State, k: nat, now: nat): State
    requires k < |s.pending|
  {
    var p := s.pending[k];
    s.(pending := s.pending[k := p.(firstSendMs := if p.firstSendMs == 0 then now else p.firstSendMs,
                                    lastSendMs := now, sendCount := p.sendCount + 1, inflight := true)],
       inflight := if p.inflight then s.inflight else s.inflight + 1)
  }

  function NoteSentMessage(s: State, id: nat, now: nat): (State, bool) {
    var k := Find(s.pending, id);
    if k == |s.pending| then (s, false)
    else if !s.pending[k].inflight && s.inflight >= s.cfg.maxInflightMessages then (s, false)
    else (Launch(s, k, now), true)
  }

  predicate Waiting(p: Pending, now: nat) {
    p.inflight && (p.lastSendMs == 0 || now < p.lastSendMs + p.rtoMs)
  }

  // resend_due() from message k on; `queued` is the send callback's answer for each message and `sent`
  // collects the messages it accepted. The flag is false when the callback failed.
  function ResendFrom(s: State, k: nat, now: nat, queued: nat -> bool, sent: seq<Pending>): (State, seq<Pending>, bool)
    requires k <= |s.pending|
    decreases |s.pending| - k
  {
    if k == |s.pending| then (s, sent, true)
    else if Expired(s.pending[k], now) || Waiting(s.pending[k], now) then ResendFrom(s, k + 1, now, queued, sent)
    else
      var s1 := if s.pending[k].inflight then TimeOut(s, k) else s;
      if s1.inflight >= s1.cfg.maxInflightMessages then (s1, sent, true)
      else if !queued(k) then (s1, sent, false)
      else ResendFrom(Launch(s1, k, now), k + 1, now, queued, sent + [s1.pending[k]])
  }

  function ResendDueMessages(s: State, now: nat, queued: nat -> bool): (State, seq<Pending>, bool) {
    ResendFrom(s, 0, now, queued, [])
  }

  // -------------------------------------------------------------------- accounting

  function BytesOf(pending: seq<Pending>): nat {
    if pending == [] then 0 else |pending[0].encoded| + BytesOf(pending[1..])
  }

  function InflightOf(pending: seq<Pending>): nat {
    if pending == [] then 0 else (if pending[0].inflight then 1 else 0) + InflightOf(pending[1..])
  }

  ghost predicate Accounted(s: State) {
    s.pendingBytes == BytesOf(s.pending) && s.inflight == InflightOf(s.pending)
  }

  ghost predicate WithinLimits(s: State) {
    && |s.pending| <= s.cfg.maxPendingMessages
    && s.pendingBytes <= s.cfg.maxPendingBytes
    && s.inflight <= s.cfg.maxInflightMessages
  }

  // Descending priority, ascending ids within a priority.
  ghost predicate Before(p: Pending, q: Pending) {
    p.id != q.id && (p.priority.Rank() > q.priority.Rank() || (p.priority == q.priority && p.id < q.id))
  }

  ghost predicate Sorted(q: seq<Pending>) { forall i, j | 0 <= i < j < |q| :: Before(q[i], q[j]) }

  // A queued message: its id was issued, its bytes start with that id, its timer is within bounds.
  ghost predicate Carried(cfg: ReliabilityConfig, nextId: nat, p: Pending) {
    && 0 < p.id < nextId
    && 8 <= |p.encoded| <= MAX_MESSAGE_BYTES && p.encoded[..8] == BigEndian(p.id, 8)
    && cfg.minRtoMs <= p.rtoMs <= cfg.maxRtoMs
  }

  ghost predicate AllCarried(cfg: ReliabilityConfig, nextId: nat, q: seq<Pending>) {
    forall i | 0 <= i < |q| :: Carried(cfg, nextId, q[i])
  }

  ghost predicate Valid(s: State) {
    && s.cfg.Valid() && s.cfg.maxPendingBytes + 8 + U16_LIMIT <= U32_LIMIT
    && s.nextId >= 1
    && Accounted(s) && WithinLimits(s)
    && Sorted(s.pending) && AllCarried(s.cfg, s.nextId, s.pending)
    && s.cfg.minRtoMs <= s.rtt.rto <= s.cfg.maxRtoMs
  }

  lemma {:induction false} Totals(a: seq<Pending>, b: seq<Pending>)
    ensures BytesOf(a + b) == BytesOf(a) + BytesOf(b)
    ensures InflightOf(a + b) == InflightOf(a) + InflightOf(b)
  {
    if a == [] {
      assert a + b == b;
    } else {
      Totals(a[1..], b);
      assert (a + b)[1..] == a[1..] + b;
    }
  }

  // The totals of a queue around one of its messages.
  lemma TotalsAt(q: seq<Pending>, k: nat)
    requires k < |q|
    ensures BytesOf(q) == BytesOf(q[..k]) + |q[k].encoded| + BytesOf(q[k + 1..])
    ensures InflightOf(q) == InflightOf(q[..k]) + (if q[k].inflight then 1 else 0) + InflightOf(q[k + 1..])
  {
    Totals(q[..k], q[k..]);
    assert q == q[..k] + q[k..] && q[k..][1..] == q[k + 1..];
  }

  lemma BytesBound(q: seq<Pending>, k: nat)
    requires k < |q|
    ensures |q[k].encoded| <= BytesOf(q)
  {
    TotalsAt(q, k);
  }

  lemma UpdateTotals(q: seq<Pending>, k: nat, p: Pending)
    requires k < |q| && p.encoded == q[k].encoded
    ensures BytesOf(q[k := p]) == BytesOf(q)
    ensures InflightOf(q[k := p]) == InflightOf(q) - (if q[k].inflight then 1 else 0) + (if p.inflight then 1 else 0)
  {
    TotalsAt(q, k);
    TotalsAt(q[k := p], k);
    assert q[k := p][..k] == q[..k] && q[k := p][k + 1..] == q[k + 1..];
  }

  lemma RemoveTotals(q: seq<Pending>, k: nat)
    requires k < |q|
    ensures BytesOf(q[..k] + q[k + 1..]) == BytesOf(q) - |q[k].encoded|
    ensures InflightOf(q[..k] + q[k + 1..]) == InflightOf(q) - (if q[k].inflight then 1 else 0)
  {
    TotalsAt(q, k);
    Totals(q[..k], q[k + 1..]);
  }

  lemma InsertTotals(q: seq<Pending>, k: nat, p: Pending)
    requires k <= |q|
    ensures BytesOf(q[..k] + [p] + q[k..]) == BytesOf(q) + |p.encoded|
    ensures InflightOf(q[..k] + [p] + q[k..]) == InflightOf(q) + (if p.inflight then 1 else 0)
  {
    SpliceTotals(q[..k], p, q[k..]);
    Totals(q[..k], q[k..]);
    assert q == q[..k] + q[k..];
  }

  lemma SpliceTotals(a: seq<Pending>, p: Pending, b: seq<Pending>)
    ensures BytesOf(a + [p] + b) == BytesOf(a) + |p.encoded| + BytesOf(b)
    ensures InflightOf(a + [p] + b) == InflightOf(a) + (if p.inflight then 1 else 0) + InflightOf(b)
  {
    Totals(a + [p], b);
    Totals(a, [p]);
  }

  lemma InsertSorted(cfg: ReliabilityConfig, q: seq<Pending>, p: Pending)
    requires Sorted(q) && AllCarried(cfg, p.id, q)
    ensures Sorted(Inserted(q, p))
  {
    SpliceSorted(cfg, q, p, InsertAt(q, p.priority), Inserted(q, p));
  }

  function SpliceAt(q: seq<Pending>, p: Pending, k: nat, i: nat): Pending
    requires k <= |q| && i <= |q|
  {
    if i < k then q[i] else if i == k then p else q[i - 1]
  }

  lemma SpliceIndex(q: seq<Pending>, p: Pending, k: nat, q': seq<Pending>, i: nat)
    requires k <= |q| && i <= |q| && q' == q[..k] + [p] + q[k..]
    ensures q'[i] == SpliceAt(q, p, k, i)
  {
  }

  lemma SpliceSorted(cfg: ReliabilityConfig, q: seq<Pending>, p: Pending, k: nat, q': seq<Pending>)
    requires Sorted(q) && AllCarried(cfg, p.id, q) && k <= |q| && q' == q[..k] + [p] + q[k..]
    requires forall i | 0 <= i < k :: q[i].priority.Rank() >= p.priority.Rank()
    requires k < |q| ==> q[k].priority.Rank() < p.priority.Rank()
    ensures Sorted(q')
  {
    forall i, j | 0 <= i < j < |q'| ensures Before(q'[i], q'[j]) {
      SpliceIndex(q, p, k, q', i);
      SpliceIndex(q, p, k, q', j);
      SplicePair(cfg, q, p, k, i, j);
    }
  }

  lemma SplicePair(cfg: ReliabilityConfig, q: seq<Pending>, p: Pending, k: nat, i: nat, j: nat)
    requires Sorted(q) && AllCarried(cfg, p.id, q) && k <= |q| && i < j <= |q|
    requires i < k ==> q[i].priority.Rank() >= p.priority.Rank()
    requires k < |q| ==> q[k].priority.Rank() < p.priority.Rank()
    ensures Before(SpliceAt(q, p, k, i), SpliceAt(q, p, k, j))
  {
    if i == k {
      assert Carried(cfg, p.id, q[j - 1]);
      AfterNew(cfg, q, p, k, j - 1);
    } else if j == k {
      assert Carried(cfg, p.id, q[i]);
    } else {
      assert Before(q[if i < k then i else i - 1], q[if j < k then j else j - 1]);
    }
  }

  // Everything from the insertion point on has lower priority.
  lemma AfterNew(cfg: ReliabilityConfig, q: seq<Pending>, p: Pending, k: nat, j: nat)
    requires Sorted(q) && k <= j < |q| && Carried(cfg, p.id, q[j]) && q[k].priority.Rank() < p.priority.Rank()
    ensures Before(p, q[j])
  {
    if k < j { assert Before(q[k], q[j]); }
  }

  lemma InsertCarried(cfg: ReliabilityConfig, nextId: nat, q: seq<Pending>, k: nat, p: Pending)
    requires AllCarried(cfg, nextId, q) && k <= |q| && Carried(cfg, nextId + 1, p)
    ensures AllCarried(cfg, nextId + 1, q[..k] + [p] + q[k..])
  {
    var q' := q[..k] + [p] + q[k..];
    forall i | 0 <= i < |q'| ensures Carried(cfg, nextId + 1, q'[i]) {
      if i != k { assert Carried(cfg, nextId, q[if i < k then i else i - 1]); }
    }
  }

  lemma RemoveSorted(q: seq<Pending>, k: nat)
    requires Sorted(q) && k < |q|
    ensures Sorted(q[..k] + q[k + 1..])
  {
    var q' := q[..k] + q[k + 1..];
    forall i, j | 0 <= i < j < |q'| ensures Before(q'[i], q'[j]) {
      assert Before(q[if i < k then i else i + 1], q[if j < k then j else j + 1]);
    }
  }

  lemma EnqueueAccepts(s: State, kind: byte, data: seq<byte>, priority: Priority, lifetime: nat, now: nat)
    requires Valid(s) && |data| < U16_LIMIT
    ensures EnqueueMessage(s, kind, data, priority, lifetime, now).1.Success? <==>
      && |s.pending| < s.cfg.maxPendingMessages
      && s.pendingBytes + 8 + |data| <= s.cfg.maxPendingBytes
      && |data| <= MAX_RELIABLE_MESSAGE_BYTES
  {
    assert W32(s.pendingBytes + (8 + |data|)) == s.pendingBytes + 8 + |data|;
  }

  // Every operation keeps the accounting, the three limits and the queue order.
  lemma EnqueueKeepsValid(s: State, kind: byte, data: seq<byte>, priority: Priority, lifetime: nat, now: nat)
    requires Valid(s) && |data| < U16_LIMIT
    ensures Valid(EnqueueMessage(s, kind, data, priority, lifetime, now).0)
  {
    EnqueueAccepts(s, kind, data, priority, lifetime, now);
    var (s', r) := EnqueueMessage(s, kind, data, priority, lifetime, now);
    if r.Success? {
      var k := InsertAt(s.pending, priority);
      InsertTotals(s.pending, k, r.value);
      InsertSorted(s.cfg, s.pending, r.value);
      assert r.value.encoded[..8] == BigEndian(s.nextId, 8);
      InsertCarried(s.cfg, s.nextId, s.pending, k, r.value);
    }
  }

  lemma RemoveKeepsValid(s: State, k: nat)
    requires Valid(s) && k < |s.pending|
    ensures |s.pending[k].encoded| <= s.pendingBytes && Valid(Remove(s, k))
  {
    BytesBound(s.pending, k);
    RemoveTotals(s.pending, k);
    RemoveSorted(s.pending, k);
  }

  lemma AcknowledgeKeepsValid(s: State, id: nat, now: nat)
    requires Valid(s)
    ensures Valid(AcknowledgeMessage(s, id, now).0)
  {
    var k := Find(s.pending, id);
    if k < |s.pending| { RemoveKeepsValid(s, k); }
  }

  // Changing the timing fields of one message keeps the queue order.
  lemma RewriteSorted(q: seq<Pending>, k: nat, p: Pending)
    requires Sorted(q) && k < |q| && p.id == q[k].id && p.priority == q[k].priority
    ensures Sorted(q[k := p])
  {
    var q' := q[k := p];
    forall i, j | 0 <= i < j < |q'| ensures Before(q'[i], q'[j]) {
      assert Before(q[i], q[j]);
    }
  }

  lemma TimeOutKeepsValid(s: State, k: nat)
    requires Valid(s) && k < |s.pending| && s.pending[k].inflight
    ensures Valid(TimeOut(s, k)) && TimeOut(s, k).inflight == s.inflight - 1
  {
    var p := s.pending[k].(inflight := false, rtoMs := BackedOff(s.cfg, s.pending[k].rtoMs));
    UpdateTotals(s.pending, k, p);
    RewriteSorted(s.pending, k, p);
  }

  lemma LaunchKeepsValid(s: State, k: nat, now: nat)
    requires Valid(s) && k < |s.pending|
    requires s.pending[k].inflight || s.inflight < s.cfg.maxInflightMessages
    ensures Valid(Launch(s, k, now))
  {
    var p := Launch(s, k, now).pending[k];
    UpdateTotals(s.pending, k, p);
    RewriteSorted(s.pending, k, p);
  }

  lemma NoteSentKeepsValid(s: State, id: nat, now: nat)
    requires Valid(s)
    ensures Valid(NoteSentMessage(s, id, now).0)
  {
    var k := Find(s.pending, id);
    if k < |s.pending| && (s.pending[k].inflight || s.inflight < s.cfg.maxInflightMessages) {
      LaunchKeepsValid(s, k, now);
    }
  }

  lemma {:induction false} ResendKeepsValid(s: State, k: nat, now: nat, queued: nat -> bool, sent: seq<Pending>)
    requires Valid(s) && k <= |s.pending|
    ensures Valid(ResendFrom(s, k, now, queued, sent).0)
    decreases |s.pending| - k
  {
    if k == |s.pending| {
    } else if Expired(s.pending[k], now) || Waiting(s.pending[k], now) {
      ResendKeepsValid(s, k + 1, now, queued, sent);
    } else {
      if s.pending[k].inflight { TimeOutKeepsValid(s, k); }
      var s1 := if s.pending[k].inflight then TimeOut(s, k) else s;
      if s1.inflight < s1.cfg.maxInflightMessages && queued(k) {
        LaunchKeepsValid(s1, k, now);
        ResendKeepsValid(Launch(s1, k, now), k + 1, now, queued, sent + [s1.pending[k]]);
      }
    }
  }

  lemma {:induction false} AliveFacts(cfg: ReliabilityConfig, nextId: nat, q: seq<Pending>, now: nat)
    requires Sorted(q) && AllCarried(cfg, nextId, q)
    ensures var q' := Alive(q, now);
      && (forall p | p in q' :: p in q && !Expired(p, now))
      && Sorted(q') && AllCarried(cfg, nextId, q')
      && |q'| <= |q| && BytesOf(q') <= BytesOf(q) && InflightOf(q') <= InflightOf(q)
  {
    if q != [] {
      AliveFacts(cfg, nextId, q[1..], now);
      var rest := Alive(q[1..], now);
      var q' := Alive(q, now);
      if !Expired(q[0], now) {
        assert q'[1..] == rest;
        forall i, j | 0 <= i < j < |q'| ensures Before(q'[i], q'[j]) {
          assert q'[j] == rest[j - 1] && rest[j - 1] in q[1..];
          if i == 0 {
            var k :| 0 <= k < |q[1..]| && q[1..][k] == q'[j];
            assert Before(q[0], q[k + 1]);
          }
        }
      } else {
        assert q' == rest;
      }
    }
  }

  lemma ExpireKeepsValid(s: State, now: nat)
    requires Valid(s)
    ensures Valid(ExpireOldMessages(s, now))
  {
    AliveFacts(s.cfg, s.nextId, s.pending, now);
  }

  // --------------------------------------------- the contents of queued messages

  // Every message of the queue has contents of the given sort.
  ghost predicate AllHold(q: seq<Pending>, good: (nat, byte, seq<byte>) -> bool) {
    forall i | 0 <= i < |q| :: good(q[i].id, q[i].kind, q[i].encoded)
  }

  lemma EnqueueContents(s: State, kind: byte, data: seq<byte>, priority: Priority, lifetime: nat, now: nat)
    ensures var (s', r) := EnqueueMessage(s, kind, data, priority, lifetime, now);
      && (r.Failure? ==> s'.pending == s.pending && s'.nextId >= s.nextId)
      && (r.Success? ==>
        && r.value.id == s.nextId && r.value.kind == kind && r.value.encoded == EncodeNumbered(s.nextId, data)
        && s'.nextId == s.nextId + 1
        && forall i | 0 <= i < |s'.pending| :: s'.pending[i] == r.value || s'.pending[i] in s.pending)
  {
  }

  lemma AcknowledgeContents(s: State, id: nat, now: nat, good: (nat, byte, seq<byte>) -> bool)
    requires Accounted(s) && AllHold(s.pending, good)
    ensures var s' := AcknowledgeMessage(s, id, now).0; AllHold(s'.pending, good) && s'.nextId == s.nextId
  {
  }

  lemma NoteSentContents(s: State, id: nat, now: nat, good: (nat, byte, seq<byte>) -> bool)
    requires AllHold(s.pending, good)
    ensures var s' := NoteSentMessage(s, id, now).0; AllHold(s'.pending, good) && s'.nextId == s.nextId
  {
  }

  lemma {:induction false} AliveContents(q: seq<Pending>, now: nat, good: (nat, byte, seq<byte>) -> bool)
    requires AllHold(q, good)
    ensures AllHold(Alive(q, now), good)
  {
    if q != [] { AliveContents(q[1..], now, good); }
  }

  // Retransmission never changes what a message carries.
  lemma {:induction false} ResendContents(s: State, k: nat, now: nat, queued: nat -> bool, sent: seq<Pending>,
                                          good: (nat, byte, seq<byte>) -> bool)
    requires k <= |s.pending| && AllHold(s.pending, good) && AllHold(sent, good)
    ensures var (s', sent', _) := ResendFrom(s, k, now, queued, sent);
      s'.nextId == s.nextId && AllHold(s'.pending, good) && AllHold(sent', good)
    decreases |s.pending| - k
  {
    if k == |s.pending| {
    } else if Expired(s.pending[k], now) || Waiting(s.pending[k], now) {
      ResendContents(s, k + 1, now, queued, sent, good);
    } else {
      var s1 := if s.pending[k].inflight then TimeOut(s, k) else s;
      assert AllHold(s1.pending, good);
      if s1.inflight < s1.cfg.maxInflightMessages && queued(k) {
        ResendContents(Launch(s1, k, now), k + 1, now, queued, sent + [s1.pending[k]], good);
      }
    }
  }

  // ----------------------------------------------------------------------- class

  // Looking at message k leaves what is alive as it is: the message stays, or the queue closes over it.
  lemma AliveAt(q: seq<Pending>, k: nat, now: nat)
    requires k < |q|
    ensures !Expired(q[k], now) ==> q[..k + 1] + Alive(q[k + 1..], now) == q[..k] + Alive(q[k..], now)
    ensures Expired(q[k], now) ==>
      var q' := q[..k] + q[k + 1..]; q'[..k] + Alive(q'[k..], now) == q[..k] + Alive(q[k..], now)
  {
    assert q[k..][1..] == q[k + 1..];
    if Expired(q[k], now) {
      var q' := q[..k] + q[k + 1..];
      assert q'[..k] == q[..k] && q'[k..] == q[k + 1..];
    } else {
      assert q[..k + 1] + Alive(q[k + 1..], now) == q[..k] + ([q[k]] + Alive(q[k + 1..], now));
    }
  }

  class ReliableSession {
    var cfg: ReliabilityConfig
    var nextId: nat
    var pending: seq<Pending>
    var pendingBytes: nat
    var inflight: nat
    var rtt: Rtt
    var lossEvents: nat

    ghost function Value(): State reads this { State(cfg, nextId, pending, pendingBytes, inflight, rtt, lossEvents) }

    constructor (cfg: ReliabilityConfig)
      ensures Value() == Initial(cfg)
    {
      this.cfg, nextId, pending, pendingBytes, inflight := cfg, 1, [], 0, 0;
      rtt, lossEvents := FreshRtt(cfg), 0;
    }

    // deque insertion before the first message of lower priority
    method Insert(out: Pending)
      modifies `pending
      ensures pending == Inserted(old(pending), out)
    {
      var at := 0;
      assert pending[0..] == pending;
      while at < |pending| && pending[at].priority.Rank() >= out.priority.Rank()
        invariant at <= |pending| && pending == old(pending)
        invariant InsertAt(pending, out.priority) == at + InsertAt(pending[at..], out.priority)
      {
        assert pending[at..][1..] == pending[at + 1..];
        at := at + 1;
      }
      pending := pending[..at] + [out] + pending[at..];
    }

    method Enqueue(kind: byte, data: seq<byte>, priority: Priority, lifetime: nat, now: nat)
      returns (r: Result<Pending>)
      modifies this
      ensures (Value(), r) == EnqueueMessage(old(Value()), kind, data, priority, lifetime, now)
    {
      if |pending| >= cfg.maxPendingMessages { return Failure(QueueFull); }
      var newBytes := 8 + |data|;
      if W32(pendingBytes + newBytes) > cfg.maxPendingBytes { return Failure(QueueFull); }
      var id := nextId;
      nextId := nextId + 1;
      if id == 0 || |data| > MAX_RELIABLE_MESSAGE_BYTES { return Failure(InvalidArg); }
      var out := NewPending(id, kind, data, priority, lifetime, now, rtt.rto);
      Insert(out);
      pendingBytes := pendingBytes + newBytes;
      return Success(out);
    }

    method Locate(id: nat) returns (at: nat)
      ensures at == Find(pending, id)
    {
      at := 0;
      assert pending[0..] == pending;
      while at < |pending| && pending[at].id != id
        invariant at <= |pending|
        invariant Find(pending, id) == at + Find(pending[at..], id)
      {
        assert pending[at..][1..] == pending[at + 1..];
        at := at + 1;
      }
    }

    method Acknowledge(id: nat, now: nat) returns (event: AckEvent)
      requires Accounted(Value())
      modifies this
      ensures (Value(), event) == AcknowledgeMessage(old(Value()), id, now)
    {
      var at := Locate(id);
      if at == |pending| { return AckEvent(false, None, false); }
      var p := pending[at];
      BytesBound(pending, at);
      event := AckEvent(true, None, p.sendCount > 1);
      if p.inflight && inflight > 0 { inflight := inflight - 1; }
      if p.sendCount == 1 && p.firstSendMs != 0 && now >= p.firstSendMs {
        event := event.(sample := Some(now - p.firstSendMs));
        rtt := UpdateRtt(cfg, rtt, now - p.firstSendMs);
      }
      pendingBytes := pendingBytes - |p.encoded|;
      pending := pending[..at] + pending[at + 1..];
    }

    method NoteSent(id: nat, now: nat) returns (ok: bool)
      modifies this
      ensures (Value(), ok) == NoteSentMessage(old(Value()), id, now)
    {
      var at := Locate(id);
      if at == |pending| { return false; }
      var p := pending[at];
      if !p.inflight && inflight >= cfg.maxInflightMessages { return false; }
      if !p.inflight { inflight := inflight + 1; }
      if p.firstSendMs == 0 { p := p.(firstSendMs := now); }
      pending := pending[at := p.(lastSendMs := now, sendCount := p.sendCount + 1, inflight := true)];
      return true;
    }

    method ResendDue(now: nat, queued: nat -> bool) returns (sent: seq<Pending>, ok: bool)
      modifies this
      ensures (Value(), sent, ok) == ResendDueMessages(old(Value()), now, queued)
    {
      ghost var goal := ResendFrom(Value(), 0, now, queued, []);
      sent := [];
      var k := 0;
      while k < |pending|
        invariant k <= |pending|
        invariant ResendFrom(Value(), k, now, queued, sent) == goal
        decreases |pending| - k
      {
        var p := pending[k];
        if p.lifetimeMs > 0 && now >= p.enqueuedMs + p.lifetimeMs {
          k := k + 1;
          continue;
        }
        if p.inflight {
          if p.lastSendMs == 0 || now < p.lastSendMs + p.rtoMs {
            k := k + 1;
            continue;
          }
          DeclareLost(k);
        }
        if inflight >= cfg.maxInflightMessages { return sent, true; }
        if !queued(k) { return sent, false; }
        sent := sent + [pending[k]];
        MarkSent(k, now);
        k := k + 1;
      }
      return sent, true;
    }

    method DeclareLost(k: nat)
      requires k < |pending|
      modifies `lossEvents, `inflight, `pending
      ensures Value() == TimeOut(old(Value()), k)
    {
      lossEvents := lossEvents + 1;
      var p := pending[k];
      p := p.(inflight := false, rtoMs := BackedOff(cfg, p.rtoMs));
      if inflight > 0 { inflight := inflight - 1; }
      pending := pending[k := p];
    }

    method MarkSent(k: nat, now: nat)
      requires k < |pending| && !pending[k].inflight
      modifies `inflight, `pending
      ensures Value() == Launch(old(Value()), k, now)
    {
      var p := pending[k];
      if p.firstSendMs == 0 { p := p.(firstSendMs := now); }
      pending := pending[k := p.(lastSendMs := now, sendCount := p.sendCount + 1, inflight := true)];
      inflight := inflight + 1;
    }

    method ExpireOld(now: nat) returns (removed: nat)
      requires Accounted(Value())
      modifies this
      ensures Value() == ExpireOldMessages(old(Value()), now)
      ensures removed == |old(pending)| - |pending|
    {
      ghost var before := Value();
      removed := 0;
      var k := 0;
      assert pending[0..] == pending;
      while k < |pending|
        invariant k <= |pending| && removed == |before.pending| - |pending|
        invariant Value() == before.(pending := pending, pendingBytes := pendingBytes, inflight := inflight)
        invariant pending[..k] + Alive(pending[k..], now) == Alive(before.pending, now)
        invariant pendingBytes == BytesOf(pending) && inflight == InflightOf(pending)
        decreases |pending| - k
      {
        var p := pending[k];
        AliveAt(pending, k, now);
        if p.lifetimeMs == 0 || now < p.enqueuedMs + p.lifetimeMs {
          k := k + 1;
          continue;
        }
        RemoveTotals(pending, k);
        if p.inflight && inflight > 0 { inflight := inflight - 1; }
        pendingBytes := pendingBytes - |p.encoded|;
        pending := pending[..k] + pending[k + 1..];
        removed := removed + 1;
      }
      assert pending[..k] + Alive(pending[k..], now) == pending;
    }
  }
}
