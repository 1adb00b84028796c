// Why a flush stops: what the queues leave behind is what could not go.
module Flushing {
  import opened Config
  import opened Congestion
  import P = Pacing
  import opened Sharing

  // ----------------------------------------------------------------------- the client's queue

  type Purse = (Bucket, bool)

  // What n packets in a row make of a purse, one each round from the i-th on.
  ghost function Spent(pay: (Purse, P.Packet, nat) -> Purse, pending: seq<P.Packet>, purse: Purse, i: nat, n: nat,
                       clock: nat -> nat): Purse
    requires n <= |pending|
  {
    if n == 0 then purse else pay(Spent(pay, pending, purse, i, n - 1, clock), pending[n - 1], clock(i + n - 1))
  }

  lemma {:induction false} SpentFirst(pay: (Purse, P.Packet, nat) -> Purse, pending: seq<P.Packet>, purse: Purse,
                                      i: nat, n: nat, clock: nat -> nat)
    requires 0 < n <= |pending|
    ensures Spent(pay, pending, purse, i, n, clock) ==
      Spent(pay, pending[1..], pay(purse, pending[0], clock(i)), i + 1, n - 1, clock)
  {
    if n > 1 {
      SpentFirst(pay, pending, purse, i, n - 1, clock);
      assert i + 1 + (n - 1) - 1 == i + n - 1;
    }
  }

  // A round pays for one packet from the refilled bucket; the flag says that it could every time.
  ghost function Pay(): (Purse, P.Packet, nat) -> Purse {
    (purse: Purse, p: P.Packet, now: nat) =>
      var b := Refill(purse.0, now);
      if |p.bytes| <= b.budget then (b.(budget := b.budget - |p.bytes|), purse.1) else (b, false)
  }

  ghost function Paid(pending: seq<P.Packet>, b: Bucket, i: nat, n: nat, clock: nat -> nat): Purse
    requires n <= |pending|
  {
    Spent(Pay(), pending, (b, true), i, n, clock)
  }

  // What the budget is when packet n has its turn.
  ghost function BudgetAt(q: P.Queue, i: nat, n: nat, clock: nat -> nat): nat
    requires n <= |q.pending|
  {
    Refill(Paid(q.pending, q.b, i, n, clock).0, clock(i + n)).budget
  }

  // n packets go, each within the budget of its round and taken by the socket; and then nothing is left, the packet in
  // front is dearer than the budget, or the socket does not take it.
  ghost predicate StopsAt(q: P.Queue, i: nat, n: nat, clock: nat -> nat, socket: nat -> P.Reply) {
    && n <= |q.pending| && Paid(q.pending, q.b, i, n, clock).1
    && (forall r: nat | i <= r < i + n :: socket(r) == P.Taken)
    && (n < |q.pending| ==> BudgetAt(q, i, n, clock) < |q.pending[n].bytes| || socket(i + n) != P.Taken)
  }

  ghost predicate Snaps(q: P.Queue, i: nat, n: nat, clock: nat -> nat, socket: nat -> P.Reply)
    requires n <= |q.pending|
  {
    n < |q.pending| && socket(i + n) == P.Broken && |q.pending[n].bytes| <= BudgetAt(q, i, n, clock)
  }

  // The queue after its first packet went out.
  ghost function Rest(q: P.Queue, now: nat): P.Queue
    requires q.pending != [] && q.pendingBytes == P.Size(q.pending)
    requires |q.pending[0].bytes| <= Refill(q.b, now).budget
  {
    var b := Refill(q.b, now);
    P.Queue(q.pending[1..], q.pendingBytes - |q.pending[0].bytes|, b.(budget := b.budget - |q.pending[0].bytes|))
  }

  lemma BudgetLater(q: P.Queue, rest: P.Queue, i: nat, m: nat, clock: nat -> nat)
    requires m < |q.pending| && m <= |rest.pending|
    requires Paid(q.pending, q.b, i, m + 1, clock) == Paid(rest.pending, rest.b, i + 1, m, clock)
    ensures BudgetAt(q, i, m + 1, clock) == BudgetAt(rest, i + 1, m, clock)
  {
    assert i + 1 + m == i + (m + 1);
  }

  // q with its first packet sent is rest, with the bucket that leaves.
  lemma StopsOneLater(q: P.Queue, rest: P.Queue, i: nat, m: nat, clock: nat -> nat, socket: nat -> P.Reply)
    requires q.pending != [] && rest.pending == q.pending[1..] && m <= |rest.pending| && socket(i) == P.Taken
    requires Paid(q.pending, q.b, i, m + 1, clock) == Paid(rest.pending, rest.b, i + 1, m, clock)
    requires BudgetAt(q, i, m + 1, clock) == BudgetAt(rest, i + 1, m, clock)
    requires StopsAt(rest, i + 1, m, clock, socket)
    ensures StopsAt(q, i, m + 1, clock, socket)
    ensures Snaps(q, i, m + 1, clock, socket) <==> Snaps(rest, i + 1, m, clock, socket)
    ensures EndBucket(q, i, m + 1, clock, socket) == EndBucket(rest, i + 1, m, clock, socket)
  {
    assert i + 1 + m == i + (m + 1);
  }

  lemma RestPaid(q: P.Queue, rest: P.Queue, i: nat, m: nat, clock: nat -> nat)
    requires q.pending != [] && q.pendingBytes == P.Size(q.pending) && m < |q.pending|
    requires |q.pending[0].bytes| <= Refill(q.b, clock(i)).budget && rest == Rest(q, clock(i))
    ensures rest.pending == q.pending[1..]
    ensures Paid(q.pending, q.b, i, m + 1, clock) == Paid(rest.pending, rest.b, i + 1, m, clock)
  {
    SpentFirst(Pay(), q.pending, (q.b, true), i, m + 1, clock);
    assert Pay()((q.b, true), q.pending[0], clock(i)) == (rest.b, true);
  }

  lemma StopsLater(q: P.Queue, rest: P.Queue, i: nat, m: nat, clock: nat -> nat, socket: nat -> P.Reply)
    requires q.pending != [] && q.pendingBytes == P.Size(q.pending)
    requires |q.pending[0].bytes| <= Refill(q.b, clock(i)).budget && socket(i) == P.Taken
    requires rest == Rest(q, clock(i)) && StopsAt(rest, i + 1, m, clock, socket)
    ensures StopsAt(q, i, m + 1, clock, socket)
    ensures Snaps(q, i, m + 1, clock, socket) <==> Snaps(rest, i + 1, m, clock, socket)
    ensures EndBucket(q, i, m + 1, clock, socket) == EndBucket(rest, i + 1, m, clock, socket)
  {
    RestPaid(q, rest, i, m, clock);
    BudgetLater(q, rest, i, m, clock);
    StopsOneLater(q, rest, i, m, clock, socket);
  }

  // The bucket at the end: it paid for n packets; the packet that could not go pressed on the rate, unless the socket
  // broke.
  ghost function EndBucket(q: P.Queue, i: nat, n: nat, clock: nat -> nat, socket: nat -> P.Reply): Bucket
    requires n <= |q.pending|
  {
    var paid := Paid(q.pending, q.b, i, n, clock).0;
    if n == |q.pending| then paid
    else
      var b := Refill(paid, clock(i + n));
      if Snaps(q, i, n, clock, socket) then b else Pressed(b, clock(i + n))
  }

  // How a flush that stops at n ends.
  ghost predicate Flushes(q: P.Queue, i: nat, n: nat, clock: nat -> nat, socket: nat -> P.Reply, sent: seq<P.Packet>,
                          done: (P.Queue, seq<P.Packet>, nat, Status)) {
    && StopsAt(q, i, n, clock, socket)
    && done.1 == sent + q.pending[..n] && done.0.pending == q.pending[n..]
    && (done.3.Err? <==> Snaps(q, i, n, clock, socket)) && done.0.b == EndBucket(q, i, n, clock, socket)
  }

  lemma PrefixLater(pending: seq<P.Packet>, m: nat, sent: seq<P.Packet>)
    requires m < |pending|
    ensures sent + [pending[0]] + pending[1..][..m] == sent + pending[..m + 1]
    ensures pending[1..][m..] == pending[m + 1..]
  {
    assert pending[..m + 1] == [pending[0]] + pending[1..][..m];
  }

  lemma FlushesLater(q: P.Queue, rest: P.Queue, i: nat, m: nat, clock: nat -> nat, socket: nat -> P.Reply,
                     sent: seq<P.Packet>, done: (P.Queue, seq<P.Packet>, nat, Status))
    requires q.pending != [] && q.pendingBytes == P.Size(q.pending)
    requires |q.pending[0].bytes| <= Refill(q.b, clock(i)).budget && socket(i) == P.Taken && rest == Rest(q, clock(i))
    requires Flushes(rest, i + 1, m, clock, socket, sent + [q.pending[0]], done)
    ensures Flushes(q, i, m + 1, clock, socket, sent, done)
  {
    StopsLater(q, rest, i, m, clock, socket);
    PrefixLater(q.pending, m, sent);
  }

  lemma FlushesNone(q: P.Queue, i: nat, now: nat, clock: nat -> nat, socket: nat -> P.Reply, sent: seq<P.Packet>)
    requires q.pendingBytes == P.Size(q.pending)
    requires q.pending == [] || Refill(q.b, clock(i)).budget < |q.pending[0].bytes| || socket(i) != P.Taken
    ensures Flushes(q, i, 0, clock, socket, sent, P.Flush(q, i, now, clock, socket, sent))
  {
    assert sent + [] == sent;
  }

  // flush_pending() of the client: it sends a prefix of the queue and stops only where it must. It fails exactly when
  // the packet it stops at is within the budget and the socket breaks.
  lemma {:induction false} FlushSendsPrefix(q: P.Queue, i: nat, now: nat, clock: nat -> nat, socket: nat -> P.Reply,
                                            sent: seq<P.Packet>)
    returns (n: nat)
    requires q.pendingBytes == P.Size(q.pending)
    ensures Flushes(q, i, n, clock, socket, sent, P.Flush(q, i, now, clock, socket, sent))
    decreases |q.pending|
  {
    if q.pending != [] && |q.pending[0].bytes| <= Refill(q.b, clock(i)).budget && socket(i) == P.Taken {
      var m := FlushSendsPrefix(Rest(q, clock(i)), i + 1, clock(i), clock, socket, sent + [q.pending[0]]);
      FlushesLater(q, Rest(q, clock(i)), i, m, clock, socket, sent, P.Flush(q, i, now, clock, socket, sent));
      n := m + 1;
    } else {
      FlushesNone(q, i, now, clock, socket, sent);
      n := 0;
    }
  }

  // ----------------------------------------------------------------------- the server's queue

  // Nothing was passed over but for want of budget, and nothing that could go was: a packet without a session or of a
  // session that is gone, and the first packet of a session when its budget covers it.
  ghost predicate Eligible(pending: seq<Parcel>, buckets: map<nat, Bucket>, now: nat, k: nat)
    requires k < |pending|
  {
    var o := pending[k].owner;
    || o == 0 || o !in buckets
    || ((forall j | 0 <= j < k :: pending[j].owner != o) && |pending[k].bytes| <= Refill(buckets[o], now).budget)
  }

  // How a walk ends at packet n.
  ghost function EndAt(p: Parcel, buckets: map<nat, Bucket>, n: nat, reply: P.Reply): Found {
    if p.owner != 0 && p.owner !in buckets then Drops(n)
    else match reply case Taken => Sends(n) case WouldBlock => Stops case Broken => Breaks
  }

  // The first i packets were passed over, and buckets0 became buckets.
  ghost predicate Onward(pending: seq<Parcel>, buckets0: map<nat, Bucket>, buckets: map<nat, Bucket>, i: nat) {
    && i <= |pending| && buckets.Keys == buckets0.Keys
    && forall o | o in buckets && (forall j | 0 <= j < i :: pending[j].owner != o) :: buckets[o] == buckets0[o]
  }

  lemma OnwardStep(pending: seq<Parcel>, buckets0: map<nat, Bucket>, buckets: map<nat, Bucket>, i: nat, now: nat)
    requires Onward(pending, buckets0, buckets, i) && i < |pending| && Blocked(buckets, pending[i], now)
    ensures Onward(pending, buckets0, PassOver(buckets, pending[i].owner, now), i + 1)
    ensures !Eligible(pending, buckets0, now, i)
  {
    var after := PassOver(buckets, pending[i].owner, now);
    forall o | o in after && (forall j | 0 <= j < i + 1 :: pending[j].owner != o) ensures after[o] == buckets0[o] {
      assert pending[i].owner != o;
      assert forall j | 0 <= j < i :: pending[j].owner != o;
    }
  }

  // The bucket of a session whose packet had its turn.
  ghost function AfterTry(b: Bucket, bytes: nat, now: nat, reply: P.Reply): Bucket {
    var b1 := Refill(b, now);
    match reply
    case Taken => b1.(budget := if bytes <= b1.budget then b1.budget - bytes else 0)
    case WouldBlock => Pressed(b1, now)
    case Broken => b1
  }

  // A session none of whose packets was passed over keeps its bucket, or pays for the packet that had its turn.
  ghost predicate BucketOk(pending: seq<Parcel>, buckets: map<nat, Bucket>, after: map<nat, Bucket>, i: nat, n: nat,
                           now: nat, reply: P.Reply, o: nat)
    requires o in buckets && n <= |pending|
  {
    && o in after
    && ((forall j | i <= j < n :: pending[j].owner != o) ==>
          after[o] == if n == |pending| || pending[n].owner != o then buckets[o]
                      else AfterTry(buckets[o], |pending[n].bytes|, now, reply))
  }

  lemma BucketStep(pending: seq<Parcel>, buckets: map<nat, Bucket>, after: map<nat, Bucket>, i: nat, n: nat, now: nat,
                   reply: P.Reply, o: nat)
    requires o in buckets && i < n <= |pending| && Blocked(buckets, pending[i], now)
    requires BucketOk(pending, PassOver(buckets, pending[i].owner, now), after, i + 1, n, now, reply, o)
    ensures BucketOk(pending, buckets, after, i, n, now, reply, o)
  {
    if forall j | i <= j < n :: pending[j].owner != o {
      assert pending[i].owner != o;
      assert forall j | i + 1 <= j < n :: pending[j].owner != o;
    }
  }

  // ... in a walk from i that ends at n.
  lemma {:induction false} WalkBuckets(pending: seq<Parcel>, buckets: map<nat, Bucket>, i: nat, now: nat,
                                       reply: P.Reply, o: nat, walk: (map<nat, Bucket>, Found))
    returns (n: nat)
    requires i <= |pending| && o in buckets && o != 0 && walk == Scan(pending, buckets, i, now, reply)
    ensures i <= n <= |pending| && BucketOk(pending, buckets, walk.0, i, n, now, reply, o)
    ensures n == |pending| <==> walk.1.Ends?
    ensures walk.1.Sends? || walk.1.Drops? ==> walk.1.k == n
    decreases |pending| - i
  {
    n := i;
    if i < |pending| && Blocked(buckets, pending[i], now) {
      n := WalkBuckets(pending, PassOver(buckets, pending[i].owner, now), i + 1, now, reply, o, walk);
      BucketStep(pending, buckets, walk.0, i, n, now, reply, o);
    }
  }

  lemma {:induction false} WalkFrom(pending: seq<Parcel>, buckets0: map<nat, Bucket>, buckets: map<nat, Bucket>, i: nat,
                                    now: nat, reply: P.Reply)
    returns (n: nat)
    requires Onward(pending, buckets0, buckets, i)
    ensures i <= n <= |pending|
    ensures forall k | i <= k < n :: !Eligible(pending, buckets0, now, k)
    ensures Scan(pending, buckets, i, now, reply).1 ==
      if n == |pending| then Ends else EndAt(pending[n], buckets0, n, reply)
    decreases |pending| - i
  {
    n := i;
    if i < |pending| && Blocked(buckets, pending[i], now) {
      OnwardStep(pending, buckets0, buckets, i, now);
      n := WalkFrom(pending, buckets0, PassOver(buckets, pending[i].owner, now), i + 1, now, reply);
    }
  }

  // One walk of the server's flush_pending, on the queue and the buckets before it.
  lemma WalkEnds(pending: seq<Parcel>, buckets: map<nat, Bucket>, now: nat, reply: P.Reply) returns (n: nat)
    ensures n <= |pending| && forall k | 0 <= k < n :: !Eligible(pending, buckets, now, k)
    ensures Scan(pending, buckets, 0, now, reply).1 ==
      if n == |pending| then Ends else EndAt(pending[n], buckets, n, reply)
  {
    n := WalkFrom(pending, buckets, buckets, 0, now, reply);
  }

  // A walk that finds nothing leaves every packet with a session that cannot afford it, refilled or not.
  lemma {:induction false} EndsBlocked(pending: seq<Parcel>, buckets: map<nat, Bucket>, k: nat, now: nat,
                                       reply: P.Reply, after: (map<nat, Bucket>, Found))
    requires k <= |pending| && AllBlocked(pending, k, buckets, now) && AllTimely(buckets, now)
    requires after == Scan(pending, buckets, k, now, reply) && after.1.Ends?
    ensures AllBlocked(pending, |pending|, after.0, now)
    decreases |pending| - k
  {
    if k < |pending| {
      BlockedStays(pending, k, buckets, now);
      EndsBlocked(pending, PassOver(buckets, pending[k].owner, now), k + 1, now, reply, after);
    }
  }

  lemma TakenNeverStops(pending: seq<Parcel>, buckets: map<nat, Bucket>, now: nat)
    ensures var found := Scan(pending, buckets, 0, now, P.Taken).1; !found.Stops? && !found.Breaks?
  {
    var n := WalkEnds(pending, buckets, now, P.Taken);
  }

  // The last walk of such a flush.
  lemma LastWalk(v: Server, w: World, limit: nat, now: nat, reply: P.Reply, buckets: map<nat, Bucket>)
    requires Sound(v, w, limit) && w.h.clock <= now && v.InTime(now)
    requires Scan(w.s.pending, w.s.buckets, 0, now, reply) == (buckets, Ends)
    ensures AllBlocked(w.s.pending, |w.s.pending|, buckets, now)
  {
    LaterBooksOk(v, w.s.buckets, w.h.books, w.h.clock, now);
    BooksTimely(v, w.s.buckets, w.h.books, now, now);
    EndsBlocked(w.s.pending, w.s.buckets, 0, now, reply, (buckets, Ends));
  }

  ghost predicate Stuck(done: (Shared, History, Status)) {
    done.2 == Ok && AllBlocked(done.0.pending, |done.0.pending|, done.0.buckets, done.1.clock)
  }

  // The flush is at its i-th round, and `done` is what it comes to.
  ghost predicate Running(v: Server, w: World, limit: nat, i: nat, clock: nat -> nat, socket: nat -> P.Reply,
                          done: (Shared, History, Status)) {
    Sound(v, w, limit) && w.h.clock <= clock(i) && Steady(clock, v) && done == Flush(w.s, w.h, i, clock, socket)
  }

  // One round of it: this was the last walk, or the flush goes on from the next world.
  lemma OneRound(v: Server, w: World, limit: nat, i: nat, clock: nat -> nat, socket: nat -> P.Reply,
                 done: (Shared, History, Status))
    returns (ends: bool, next: World)
    requires Running(v, w, limit, i, clock, socket, done) && socket(i) == P.Taken
    ensures if ends then Stuck(done)
      else Running(v, next, limit, i + 1, clock, socket, done) && |next.s.pending| < |w.s.pending|
  {
    var walk := Scan(w.s.pending, w.s.buckets, 0, clock(i), socket(i));
    next := After(w, walk.0, walk.1, clock(i));
    ends := walk.1.Ends?;
    assert Ticks(clock, v, i);
    RoundSound(v, w, limit, clock(i), socket(i));
    AfterBooks(w, walk.0, walk.1, clock(i));
    FlushStep(w.s, w.h, i, clock, socket, w.queued);
    TakenNeverStops(w.s.pending, w.s.buckets, clock(i));
    if ends { LastWalk(v, w, limit, clock(i), socket(i), walk.0); }
  }

  // A whole flush on a socket that takes everything: it succeeds, and every packet it leaves belongs to a session whose
  // budget, refilled at the last round, is less than the packet.
  lemma {:induction false} FlushLeavesOnlyBlocked(v: Server, w: World, limit: nat, i: nat, clock: nat -> nat,
                                                  socket: nat -> P.Reply, done: (Shared, History, Status))
    requires Running(v, w, limit, i, clock, socket, done) && forall k: nat :: socket(k) == P.Taken
    ensures Stuck(done)
    decreases |w.s.pending|
  {
    var ends, next := OneRound(v, w, limit, i, clock, socket, done);
    if !ends { FlushLeavesOnlyBlocked(v, next, limit, i + 1, clock, socket, done); }
  }
}
