// The client's queue of built packets and the loop that sends them within the budget.
module Pacing {
  import opened Config
  import opened Congestion
  import opened Budget

  datatype Packet = Packet(bytes: seq<byte>, priority: Priority)

  datatype Queue = Queue(pending: seq<Packet>, pendingBytes: nat, b: Bucket)

  datatype Reply = Taken | WouldBlock | Broken

  function InsertAt(pending: seq<Packet>, rank: nat): (k: nat)
    ensures k <= |pending|
    ensures forall i | 0 <= i < k :: pending[i].priority.Rank() >= rank
    ensures k < |pending| ==> pending[k].priority.Rank() < rank
  {
    if pending == [] || pending[0].priority.Rank() < rank then 0 else 1 + InsertAt(pending[1..], rank)
  }

  function Enqueue(q: Queue, limit: nat, p: Packet): (Queue, Status) {
    if |q.pending| >= limit then (q, Err(QueueFull))
    else
      var k := InsertAt(q.pending, p.priority.Rank());
      (q.(pending := q.pending[..k] + [p] + q.pending[k..], pendingBytes := q.pendingBytes + |p.bytes|), Ok)
  }

  // flush_pending() from its i-th round on: clock and socket give that round's time and send result.
  // Returns the queue, the packets sent, the time of the last round and the loop's status.
  function Flush(q: Queue, i: nat, now: nat, clock: nat -> nat, socket: nat -> Reply, sent: seq<Packet>)
    : (Queue, seq<Packet>, nat, Status)
    requires q.pendingBytes == Size(q.pending)
    decreases |q.pending|
  {
    if q.pending == [] then (q, sent, now, Ok)
    else
      var now := clock(i);
      var b := Refill(q.b, now);
      var p := q.pending[0];
      if b.budget < |p.bytes| || socket(i) == WouldBlock then
        (q.(b := Capped(b, OnBackpressure(b.c, now))), sent, now, Ok)
      else if socket(i) == Broken then (q.(b := b), sent, now, Err(StateError))
      else
        Flush(Queue(q.pending[1..], q.pendingBytes - |p.bytes|, b.(budget := b.budget - |p.bytes|)),
              i + 1, now, clock, socket, sent + [p])
  }

  function Size(packets: seq<Packet>): nat {
    if packets == [] then 0 else |packets[0].bytes| + Size(packets[1..])
  }

  // ---------------------------------------------------------------------- histories

  // The packets of one priority, in order.
  ghost function Of(packets: seq<Packet>, priority: Priority): seq<Packet> {
    if packets == [] then []
    else if packets[0].priority == priority then [packets[0]] + Of(packets[1..], priority)
    else Of(packets[1..], priority)
  }

  datatype History = History(q: Queue, queued: seq<Packet>, sent: seq<Packet>, clock: nat, start: nat, initial: nat)

  datatype Op =
    | Queues(p: Packet)
    | Flushes(clock: nat -> nat, socket: nat -> Reply)
    | Acks(sample: Option<nat>, retransmitted: bool)
    | Loses(now: nat, count: nat)

  ghost predicate Ticks(clock: nat -> nat, i: nat) { clock(i) <= clock(i + 1) }

  ghost predicate Monotone(clock: nat -> nat, from: nat) { from <= clock(0) && forall i: nat :: Ticks(clock, i) }

  ghost predicate Legal(h: History, op: Op) {
    match op
    case Queues(_) => true
    case Flushes(clock, _) => Monotone(clock, h.clock)
    case Acks(_, _) => true
    case Loses(now, _) => h.clock <= now
  }

  ghost function Apply(h: History, limit: nat, op: Op): History
    requires Legal(h, op) && h.q.pendingBytes == Size(h.q.pending)
  {
    match op
    case Queues(p) =>
      var (q, rc) := Enqueue(h.q, limit, p);
      h.(q := q, queued := if rc.Ok? then h.queued + [p] else h.queued)
    case Flushes(clock, socket) =>
      var (q, sent, now, _) := Flush(h.q, 0, h.clock, clock, socket, h.sent);
      h.(q := q, sent := sent, clock := now)
    case Acks(sample, retransmitted) => h.(q := h.q.(b := h.q.b.(c := OnAck(h.q.b.c, sample, retransmitted))))
    case Loses(now, count) => h.(q := h.q.(b := Capped(h.q.b, OnLoss(h.q.b.c, now, count))), clock := now)
  }

  ghost predicate Descending(pending: seq<Packet>) {
    forall i, j | 0 <= i < j < |pending| :: pending[i].priority.Rank() >= pending[j].priority.Rank()
  }

  ghost function LedgerOf(h: History): Ledger { Ledger(h.q.b, Size(h.sent), h.clock, h.start, h.initial) }

  // Within a priority, what was queued is what was sent followed by what waits: first in, first out,
  // nothing lost and nothing sent twice.
  ghost predicate Conserved(queued: seq<Packet>, sent: seq<Packet>, pending: seq<Packet>) {
    forall priority :: Of(queued, priority) == Of(sent, priority) + Of(pending, priority)
  }

  ghost predicate Sound(h: History, limit: nat) {
    && h.q.pendingBytes == Size(h.q.pending) && |h.q.pending| <= limit
    && Descending(h.q.pending) && Conserved(h.queued, h.sent, h.q.pending)
    && Balanced(LedgerOf(h))
  }

  lemma {:induction false} OfAppend(a: seq<Packet>, b: seq<Packet>, priority: Priority)
    ensures Of(a + b, priority) == Of(a, priority) + Of(b, priority)
  {
    if a == [] {
      assert a + b == b;
    } else {
      OfAppend(a[1..], b, priority);
      assert (a + b)[1..] == a[1..] + b;
    }
  }

  lemma {:induction false} SizeAppend(a: seq<Packet>, b: seq<Packet>)
    ensures Size(a + b) == Size(a) + Size(b)
  {
    if a == [] {
      assert a + b == b;
    } else {
      SizeAppend(a[1..], b);
      assert (a + b)[1..] == a[1..] + b;
    }
  }

  lemma {:induction false} OfNone(a: seq<Packet>, priority: Priority)
    requires forall i | 0 <= i < |a| :: a[i].priority != priority
    ensures Of(a, priority) == []
  {
    if a != [] { OfNone(a[1..], priority); }
  }

  ghost function Inserted(pending: seq<Packet>, p: Packet): seq<Packet> {
    var k := InsertAt(pending, p.priority.Rank());
    pending[..k] + [p] + pending[k..]
  }

  lemma MoveBack(front: seq<Packet>, p: Packet, back: seq<Packet>, priority: Priority)
    requires priority == p.priority ==> Of(back, priority) == []
    ensures Of(front + [p] + back, priority) == Of(front + back + [p], priority)
  {
    OfAppend(front + [p], back, priority);
    OfAppend(front, [p], priority);
    OfAppend(front + back, [p], priority);
    OfAppend(front, back, priority);
    if priority != p.priority { OfNone([p], priority); }
  }

  lemma InsertFifo(pending: seq<Packet>, p: Packet, priority: Priority)
    requires Descending(pending)
    ensures Of(Inserted(pending, p), priority) == Of(pending + [p], priority)
  {
    var k := InsertAt(pending, p.priority.Rank());
    var back := pending[k..];
    if priority == p.priority {
      forall i | 0 <= i < |back| ensures back[i].priority != priority {
        assert back[i] == pending[k + i] && pending[k].priority.Rank() >= pending[k + i].priority.Rank();
      }
      OfNone(back, priority);
    }
    MoveBack(pending[..k], p, back, priority);
    assert pending[..k] + back == pending;
  }

  lemma InsertSize(pending: seq<Packet>, p: Packet)
    ensures Size(Inserted(pending, p)) == Size(pending) + |p.bytes|
  {
    var k := InsertAt(pending, p.priority.Rank());
    SizeAppend(pending[..k] + [p], pending[k..]);
    SizeAppend(pending[..k], [p]);
    SizeAppend(pending[..k], pending[k..]);
    assert pending == pending[..k] + pending[k..];
    assert Size([p]) == |p.bytes|;
  }

  lemma InsertDescending(pending: seq<Packet>, p: Packet)
    requires Descending(pending)
    ensures Descending(Inserted(pending, p))
  {
    var k := InsertAt(pending, p.priority.Rank());
    var q := Inserted(pending, p);
    forall i, j | 0 <= i < j < |q| ensures q[i].priority.Rank() >= q[j].priority.Rank() {
      assert j > k ==>
        q[j] == pending[j - 1] && (j - 1 > k ==> pending[k].priority.Rank() >= pending[j - 1].priority.Rank());
    }
  }

  lemma EnqueueSound(h: History, limit: nat, p: Packet)
    requires Sound(h, limit)
    ensures Sound(Apply(h, limit, Queues(p)), limit)
  {
    if |h.q.pending| < limit {
      InsertSize(h.q.pending, p);
      InsertDescending(h.q.pending, p);
      forall priority
        ensures Of(h.queued + [p], priority) == Of(h.sent, priority) + Of(Inserted(h.q.pending, p), priority)
      {
        InsertFifo(h.q.pending, p, priority);
        OfAppend(h.q.pending, [p], priority);
        OfAppend(h.queued, [p], priority);
      }
    }
  }

  lemma PopConserves(queued: seq<Packet>, sent: seq<Packet>, pending: seq<Packet>)
    requires Conserved(queued, sent, pending) && pending != []
    ensures Conserved(queued, sent + [pending[0]], pending[1..])
  {
    var front, rest := [pending[0]], pending[1..];
    assert pending == front + rest;
    forall priority
      ensures Of(queued, priority) == Of(sent + front, priority) + Of(rest, priority)
    {
      OfAppend(sent, front, priority);
      OfAppend(front, rest, priority);
    }
  }

  // A round that sends the front packet.
  ghost function Sent(h: History, now: nat): History
    requires h.q.pending != [] && h.q.pendingBytes == Size(h.q.pending)
    requires |h.q.pending[0].bytes| <= Refill(h.q.b, now).budget
  {
    var b := Refill(h.q.b, now);
    var p := h.q.pending[0];
    h.(q := Queue(h.q.pending[1..], h.q.pendingBytes - |p.bytes|, b.(budget := b.budget - |p.bytes|)),
       sent := h.sent + [p], clock := now)
  }

  lemma SentSound(h: History, limit: nat, now: nat)
    requires Sound(h, limit) && h.clock <= now && h.q.pending != []
    requires |h.q.pending[0].bytes| <= Refill(h.q.b, now).budget
    ensures Sound(Sent(h, now), limit)
  {
    var p := h.q.pending[0];
    PopConserves(h.queued, h.sent, h.q.pending);
    SizeAppend(h.sent, [p]);
    TakeBalances(LedgerOf(h), Refills(now));
    TakeBalances(Take(LedgerOf(h), Refills(now)), Spends(|p.bytes|));
    assert LedgerOf(Sent(h, now)) == Take(Take(LedgerOf(h), Refills(now)), Spends(|p.bytes|));
  }

  // A round that sends nothing leaves only the bucket changed.
  lemma PausedSound(h: History, limit: nat, now: nat)
    requires Sound(h, limit) && h.clock <= now
    ensures var b := Refill(h.q.b, now);
      && Sound(h.(q := h.q.(b := b), clock := now), limit)
      && Sound(h.(q := h.q.(b := Capped(b, OnBackpressure(b.c, now))), clock := now), limit)
  {
    var l := LedgerOf(h);
    TakeBalances(l, Refills(now));
    TakeBalances(Take(l, Refills(now)), Presses(now));
  }

  lemma {:induction false} FlushSound(h: History, limit: nat, i: nat, clock: nat -> nat, socket: nat -> Reply)
    requires Sound(h, limit) && h.clock <= clock(i) && forall j: nat :: Ticks(clock, j)
    ensures var (q, sent, now, _) := Flush(h.q, i, h.clock, clock, socket, h.sent);
      Sound(h.(q := q, sent := sent, clock := now), limit)
    decreases |h.q.pending|
  {
    if h.q.pending != [] {
      var now := clock(i);
      assert Ticks(clock, i);
      if Refill(h.q.b, now).budget < |h.q.pending[0].bytes| || socket(i) != Taken {
        PausedSound(h, limit, now);
      } else {
        SentSound(h, limit, now);
        FlushSound(Sent(h, now), limit, i + 1, clock, socket);
      }
    }
  }

  lemma ApplySound(h: History, limit: nat, op: Op)
    requires Sound(h, limit) && Legal(h, op)
    ensures Sound(Apply(h, limit, op), limit)
  {
    match op
    case Queues(p) => EnqueueSound(h, limit, p);
    case Flushes(clock, socket) => FlushSound(h, limit, 0, clock, socket);
    case Acks(sample, retransmitted) => TakeBalances(LedgerOf(h), Step.Acks(sample, retransmitted));
    case Loses(now, count) => TakeBalances(LedgerOf(h), Step.Loses(now, count));
  }

  ghost function Start(cfg: CongestionConfig, sendRate: nat, now: nat): History {
    var l := Opening(cfg, sendRate, now);
    History(Queue([], 0, l.b), [], [], now, now, l.initial)
  }

  ghost predicate Reaches(cfg: CongestionConfig, sendRate: nat, start: nat, limit: nat, ops: seq<Op>, h: History)
  {
    if ops == [] then h == Start(cfg, sendRate, start)
    else
      exists before ::
        && Reaches(cfg, sendRate, start, limit, ops[..|ops| - 1], before)
        && before.q.pendingBytes == Size(before.q.pending)
        && Legal(before, ops[|ops| - 1]) && h == Apply(before, limit, ops[|ops| - 1])
  }

  // In every reachable state the queue is by descending priority and within its limit, its byte count is
  // right, each priority is first in first out without loss, and the budget ledger balances.
  lemma {:induction false} ReachableIsSound(cfg: CongestionConfig, sendRate: nat, start: nat, limit: nat, ops: seq<Op>,
                                            h: History)
    requires cfg.Valid(sendRate) && start > 0 && Reaches(cfg, sendRate, start, limit, ops, h)
    ensures Sound(h, limit)
  {
    if ops == [] {
      ConfigureIsValid(cfg, sendRate);
    } else {
      var before :|
        && Reaches(cfg, sendRate, start, limit, ops[..|ops| - 1], before)
        && before.q.pendingBytes == Size(before.q.pending)
        && Legal(before, ops[|ops| - 1]) && h == Apply(before, limit, ops[|ops| - 1]);
      ReachableIsSound(cfg, sendRate, start, limit, ops[..|ops| - 1], before);
      ApplySound(before, limit, ops[|ops| - 1]);
    }
  }

  // ------------------------------------------------------------------------- class

  class SendQueue {
    const congestion: CongestionController
    const maxPendingPackets: nat
    var pending: seq<Packet>
    var pendingBytes: nat
    var sendBudgetBytes: nat
    var lastBudgetRefillMs: nat

    ghost function BucketValue(): Bucket reads this, congestion {
      Bucket(congestion.Value(), sendBudgetBytes, lastBudgetRefillMs)
    }

    ghost function Value(): Queue reads this, congestion { Queue(pending, pendingBytes, BucketValue()) }

    constructor (cfg: CongestionConfig, sendRate: nat, maxPendingPackets: nat, now: nat)
      ensures fresh(congestion) && this.maxPendingPackets == maxPendingPackets
      ensures Value() == Start(cfg, sendRate, now).q
    {
      congestion := new CongestionController(cfg, sendRate);
      this.maxPendingPackets := maxPendingPackets;
      pending, pendingBytes, lastBudgetRefillMs := [], 0, now;
      new;
      sendBudgetBytes := congestion.RateBytesPerSecond();
    }

    method EnqueuePending(p: Packet) returns (rc: Status)
      modifies `pending, `pendingBytes
      ensures (Value(), rc) == Enqueue(old(Value()), maxPendingPackets, p)
    {
      if |pending| >= maxPendingPackets { return Err(QueueFull); }
      var at := 0;
      var rank := p.priority.Rank();
      assert pending[0..] == pending;
      while at < |pending| && pending[at].priority.Rank() >= rank
        invariant at <= |pending| && pending == old(pending)
        invariant InsertAt(pending, rank) == at + InsertAt(pending[at..], rank)
      {
        assert pending[at..][1..] == pending[at + 1..];
        at := at + 1;
      }
      pendingBytes := pendingBytes + |p.bytes|;
      pending := pending[..at] + [p] + pending[at..];
      return Ok;
    }

    method RefillSendBudget(now: nat)
      modifies `sendBudgetBytes, `lastBudgetRefillMs
      ensures BucketValue() == Refill(old(BucketValue()), now)
      ensures 0 < old(lastBudgetRefillMs) && Fits(old(BucketValue()), now) ==>
        Gains(old(BucketValue()), now, BucketValue())
    {
      GainsIfFits(BucketValue(), now);
      if lastBudgetRefillMs == 0 {
        lastBudgetRefillMs := now;
        if sendBudgetBytes == 0 { sendBudgetBytes := congestion.RateBytesPerSecond(); }
        return;
      }
      if now <= lastBudgetRefillMs { return; }
      var elapsed := now - lastBudgetRefillMs;
      var refill := W64(congestion.RateBytesPerSecond() * elapsed) / 1000;
      if refill > 0 {
        var maxBucket := congestion.BucketCapBytes();
        sendBudgetBytes := Min(maxBucket, W64(sendBudgetBytes + refill));
        lastBudgetRefillMs := now;
      }
    }

    method FlushPending(clock: nat -> nat, socket: nat -> Reply, ghost from: nat)
      returns (sent: seq<Packet>, rc: Status, ghost last: nat)
      requires pendingBytes == Size(pending)
      modifies this, congestion
      ensures (Value(), sent, last, rc) == Flush(old(Value()), 0, from, clock, socket, [])
    {
      ghost var goal := Flush(Value(), 0, from, clock, socket, []);
      sent, last := [], from;
      var i := 0;
      while pending != []
        invariant pendingBytes == Size(pending)
        invariant Flush(Value(), i, last, clock, socket, sent) == goal
        decreases |pending|
      {
        var now := clock(i);
        last := now;
        RefillSendBudget(now);
        var p := pending[0];
        if sendBudgetBytes < |p.bytes| {
          congestion.Backpressure(now);
          sendBudgetBytes := Min(sendBudgetBytes, congestion.BucketCapBytes());
          return sent, Ok, last;
        }
        if socket(i) == WouldBlock {
          congestion.Backpressure(now);
          sendBudgetBytes := Min(sendBudgetBytes, congestion.BucketCapBytes());
          return sent, Ok, last;
        }
        if socket(i) == Broken { return sent, Err(StateError), last; }
        sendBudgetBytes := sendBudgetBytes - |p.bytes|;
        pendingBytes := pendingBytes - |p.bytes|;
        pending := pending[1..];
        sent := sent + [p];
        i := i + 1;
      }
      return sent, Ok, last;
    }
  }
}
