// The server's queue of built packets, shared by all sessions: each session sends within its own budget, and a packet
// that its session cannot afford is passed over.
module Sharing {
  import opened Config
  import opened Congestion
  import P = Pacing

  // `owner` is the session's connection id, 0 for packets without one; `serial` is history: the n-th packet queued.
  datatype Parcel = Parcel(owner: nat, bytes: seq<byte>, priority: Priority, serial: nat)

  datatype Shared = Shared(pending: seq<Parcel>, pendingBytes: nat, buckets: map<nat, Bucket>)

  // The packets alone, as in the client's queue.
  function PacketsOf(parcels: seq<Parcel>): (packets: seq<P.Packet>)
    ensures |packets| == |parcels|
  {
    seq(|parcels|, i requires 0 <= i < |parcels| => P.Packet(parcels[i].bytes, parcels[i].priority))
  }

  function Size(parcels: seq<Parcel>): nat { P.Size(PacketsOf(parcels)) }

  // enqueue_pending_packet: before the first packet of lower priority.
  function InsertAt(pending: seq<Parcel>, rank: nat): (k: nat)
    ensures k <= |pending|
    ensures forall i | 0 <= i < k :: pending[i].priority.Rank() >= rank
    ensures k < |pending| ==> pending[k].priority.Rank() < rank
  {
    assert forall i | 0 <= i < |pending| :: PacketsOf(pending)[i].priority == pending[i].priority;
    P.InsertAt(PacketsOf(pending), rank)
  }

  function Inserted(pending: seq<Parcel>, p: Parcel): seq<Parcel> {
    var k := InsertAt(pending, p.priority.Rank()); pending[..k] + [p] + pending[k..]
  }

  function Without(pending: seq<Parcel>, k: nat): seq<Parcel>
    requires k < |pending|
  {
    pending[..k] + pending[k + 1..]
  }

  function Pressed(b: Bucket, now: nat): Bucket { Capped(b, OnBackpressure(b.c, now)) }

  // How a walk over the queue ends: a packet goes out or is dropped, the socket blocks or breaks, or nothing can go.
  datatype Found = Sends(k: nat) | Drops(k: nat) | Stops | Breaks | Ends

  // The session of this packet exists and cannot afford it now.
  predicate Blocked(buckets: map<nat, Bucket>, p: Parcel, now: nat) {
    p.owner != 0 && p.owner in buckets && Refill(buckets[p.owner], now).budget < |p.bytes|
  }

  function PassOver(buckets: map<nat, Bucket>, o: nat, now: nat): map<nat, Bucket>
    requires o in buckets
  {
    buckets[o := Pressed(Refill(buckets[o], now), now)]
  }

  // What becomes of a packet that is not passed over.
  function Try(buckets: map<nat, Bucket>, p: Parcel, k: nat, now: nat, reply: P.Reply): (map<nat, Bucket>, Found)
    requires !Blocked(buckets, p, now)
  {
    if p.owner == 0 then
      (buckets, match reply case Taken => Sends(k) case WouldBlock => Stops case Broken => Breaks)
    else if p.owner !in buckets then (buckets, Drops(k))
    else
      var b := Refill(buckets[p.owner], now);
      match reply
      case Taken => (buckets[p.owner := b.(budget := b.budget - |p.bytes|)], Sends(k))
      case WouldBlock => (buckets[p.owner := Pressed(b, now)], Stops)
      case Broken => (buckets[p.owner := b], Breaks)
  }

  // The inner loop of flush_pending from position k on, at one time and with one answer of the socket.
  function Scan(pending: seq<Parcel>, buckets: map<nat, Bucket>, k: nat, now: nat, reply: P.Reply)
    : (r: (map<nat, Bucket>, Found))
    requires k <= |pending|
    ensures r.1.Sends? || r.1.Drops? ==> k <= r.1.k < |pending|
    decreases |pending| - k
  {
    if k == |pending| then (buckets, Ends)
    else if Blocked(buckets, pending[k], now) then
      Scan(pending, PassOver(buckets, pending[k].owner, now), k + 1, now, reply)
    else Try(buckets, pending[k], k, now, reply)
  }

  // ------------------------------------------------------------------------- histories

  // What a session sent since it was opened.
  datatype Account = Account(spent: nat, start: nat, initial: nat)

  datatype History = History(books: map<nat, Account>, sent: seq<Parcel>, dropped: seq<Parcel>, clock: nat)

  ghost function Spend(books: map<nat, Account>, o: nat, bytes: nat): map<nat, Account>
    requires o in books
  {
    books[o := books[o].(spent := books[o].spent + bytes)]
  }

  ghost function Dropped(h: History, p: Parcel, now: nat): History { h.(dropped := h.dropped + [p], clock := now) }

  ghost function Booked(h: History, p: Parcel, now: nat): History {
    var h1 := h.(sent := h.sent + [p], clock := now);
    if p.owner in h.books then
      h1.(books := Spend(h.books, p.owner, |p.bytes|))
    else h1
  }

  lemma SizeAppend(a: seq<Parcel>, b: seq<Parcel>)
    ensures Size(a + b) == Size(a) + Size(b)
  {
    assert PacketsOf(a + b) == PacketsOf(a) + PacketsOf(b);
    P.SizeAppend(PacketsOf(a), PacketsOf(b));
  }

  lemma SizeOne(p: Parcel)
    ensures Size([p]) == |p.bytes|
  {
    var packets := PacketsOf([p]);
    assert packets[0].bytes == p.bytes && packets[1..] == [];
    assert P.Size(packets) == |packets[0].bytes| + P.Size(packets[1..]);
  }

  lemma WithoutSize(pending: seq<Parcel>, k: nat)
    requires k < |pending|
    ensures Size(pending) == Size(Without(pending, k)) + |pending[k].bytes|
  {
    assert pending == pending[..k] + ([pending[k]] + pending[k + 1..]);
    SizeAppend(pending[..k], [pending[k]] + pending[k + 1..]);
    SizeAppend([pending[k]], pending[k + 1..]);
    SizeAppend(pending[..k], pending[k + 1..]);
    SizeOne(pending[k]);
  }

  function Removed(s: Shared, buckets: map<nat, Bucket>, k: nat): (s': Shared)
    requires k < |s.pending| && s.pendingBytes == Size(s.pending)
    ensures s'.pendingBytes == Size(s'.pending)
  {
    WithoutSize(s.pending, k);
    Shared(Without(s.pending, k), s.pendingBytes - |s.pending[k].bytes|, buckets)
  }

  // flush_pending from its i-th round on: walk after walk, until one moves nothing.
  ghost function Flush(s: Shared, h: History, i: nat, clock: nat -> nat, socket: nat -> P.Reply)
    : (Shared, History, Status)
    requires s.pendingBytes == Size(s.pending)
    decreases |s.pending|
  {
    var now := clock(i);
    var (buckets, found) := Scan(s.pending, s.buckets, 0, now, socket(i));
    match found
    case Sends(k) => Flush(Removed(s, buckets, k), Booked(h, s.pending[k], now), i + 1, clock, socket)
    case Drops(k) =>
      Flush(Removed(s, buckets, k), Dropped(h, s.pending[k], now), i + 1, clock, socket)
    case Breaks => (s.(buckets := buckets), h.(clock := now), Err(StateError))
    case _ => (s.(buckets := buckets), h.(clock := now), Ok)
  }

  // --------------------------------------------------------------------- passed over

  // The product in the refill does not wrap around 2^64.
  ghost predicate Timely(b: Bucket, now: nat) {
    Valid(b.c) && 0 < b.lastRefillMs && (b.lastRefillMs < now ==> MaxRate(b.c) * (now - b.lastRefillMs) < U64_LIMIT)
  }

  ghost predicate AllTimely(buckets: map<nat, Bucket>, now: nat) { forall o | o in buckets :: Timely(buckets[o], now) }

  lemma PressedTimely(b: Bucket, now: nat)
    requires Timely(b, now)
    ensures Timely(Refill(b, now), now) && Timely(Pressed(Refill(b, now), now), now)
    ensures Rate(Pressed(Refill(b, now), now).c) <= Rate(b.c)
  {
    var b1 := Refill(b, now);
    assert now == 0 ==> b1 == b;
    BackpressureStaysInBounds(b1.c, now);
  }

  lemma ProductFits(rate: nat, lower: nat, top: nat, elapsed: nat)
    requires lower <= rate <= top && top * elapsed < U64_LIMIT
    ensures W64(lower * elapsed) / 1000 <= W64(rate * elapsed) / 1000
  {
    Scales(lower, rate, elapsed);
    Scales(rate, top, elapsed);
  }

  // Refilling again at the same time, after back-pressure, brings nothing.
  lemma RefillTwice(b: Bucket, now: nat)
    requires Timely(b, now)
    ensures Refill(Pressed(Refill(b, now), now), now).budget <= Refill(b, now).budget
  {
    PressedTimely(b, now);
    var last := b.lastRefillMs;
    if now > last {
      ProductFits(Rate(b.c), Rate(Pressed(Refill(b, now), now).c), MaxRate(b.c), now - last);
    }
  }

  ghost predicate AllBlocked(pending: seq<Parcel>, k: nat, buckets: map<nat, Bucket>, now: nat)
    requires k <= |pending|
  {
    forall j | 0 <= j < k :: Blocked(buckets, pending[j], now)
  }

  lemma BlockedStays(pending: seq<Parcel>, k: nat, buckets: map<nat, Bucket>, now: nat)
    requires k < |pending| && AllBlocked(pending, k + 1, buckets, now) && AllTimely(buckets, now)
    ensures var buckets' := PassOver(buckets, pending[k].owner, now);
      AllBlocked(pending, k + 1, buckets', now) && AllTimely(buckets', now)
  {
    assert Blocked(buckets, pending[k], now);
    var o := pending[k].owner;
    var buckets' := PassOver(buckets, o, now);
    RefillTwice(buckets[o], now);
    PressedTimely(buckets[o], now);
    forall j | 0 <= j < k + 1 ensures Blocked(buckets', pending[j], now) { assert Blocked(buckets, pending[j], now); }
  }

  // A packet goes out or is dropped only past packets whose sessions could not afford them; of its own session
  // only past longer ones.
  ghost predicate PassesOver(pending: seq<Parcel>, buckets: map<nat, Bucket>, found: Found) {
    (found.Sends? || found.Drops?) && found.k < |pending| ==>
      forall j | 0 <= j < found.k ::
        && pending[j].owner != 0 && pending[j].owner in buckets
        && (found.Sends? && pending[j].owner == pending[found.k].owner ==>
              |pending[j].bytes| > |pending[found.k].bytes|)
  }

  lemma TryPassesOver(pending: seq<Parcel>, buckets: map<nat, Bucket>, k: nat, now: nat, reply: P.Reply)
    requires k < |pending| && AllBlocked(pending, k, buckets, now) && !Blocked(buckets, pending[k], now)
    ensures PassesOver(pending, buckets, Try(buckets, pending[k], k, now, reply).1)
  {
    forall j | 0 <= j < k ensures Blocked(buckets, pending[j], now) {}
  }

  lemma {:induction false} ScanPassesOver(pending: seq<Parcel>, buckets: map<nat, Bucket>, k: nat, now: nat,
                                          reply: P.Reply)
    requires k <= |pending| && AllBlocked(pending, k, buckets, now) && AllTimely(buckets, now)
    ensures PassesOver(pending, buckets, Scan(pending, buckets, k, now, reply).1)
    decreases |pending| - k
  {
    if k < |pending| {
      if Blocked(buckets, pending[k], now) {
        BlockedStays(pending, k, buckets, now);
        ScanPassesOver(pending, PassOver(buckets, pending[k].owner, now), k + 1, now, reply);
      } else {
        TryPassesOver(pending, buckets, k, now, reply);
      }
    }
  }

  // -------------------------------------------------------------------- the budgets

  ghost function LedgerOf(buckets: map<nat, Bucket>, books: map<nat, Account>, clock: nat, o: nat): Ledger
    requires o in buckets && o in books
  {
    Ledger(buckets[o], books[o].spent, clock, books[o].start, books[o].initial)
  }

  // The server's configuration and when it started.
  datatype Server = Server(cfg: CongestionConfig, sendRate: nat, epoch: nat) {
    // What each session's controller starts from.
    function Initial(): Controller { Configure(cfg, sendRate) }

    // The fastest rate times the milliseconds since the start is below 2^64.
    predicate InTime(now: nat) { epoch <= now && MaxRate(Initial()) * (now - epoch) < U64_LIMIT }
  }

  // Each session's ledger balances, at the rates of the configuration.
  ghost predicate BooksOk(v: Server, buckets: map<nat, Bucket>, books: map<nat, Account>, clock: nat) {
    forall o | o in buckets ::
      && o in books && o != 0 && Balanced(LedgerOf(buckets, books, clock, o))
      && MaxRate(buckets[o].c) == MaxRate(v.Initial())
      && books[o].initial == Rate(v.Initial()) && v.epoch <= books[o].start
  }

  lemma LaterBooksOk(v: Server, buckets: map<nat, Bucket>, books: map<nat, Account>, clock: nat, now: nat)
    requires BooksOk(v, buckets, books, clock) && clock <= now
    ensures BooksOk(v, buckets, books, now)
  {
    forall o | o in buckets ensures Balanced(LedgerOf(buckets, books, now, o)) {
      assert Balanced(LedgerOf(buckets, books, clock, o));
    }
  }

  // What a walk does to one bucket, in the ledger's terms.
  lemma SetBooks(v: Server, buckets: map<nat, Bucket>, books: map<nat, Account>, now: nat, o: nat, b: Bucket,
                 a: Account)
    requires BooksOk(v, buckets, books, now) && o in buckets
    requires Balanced(Ledger(b, a.spent, now, a.start, a.initial)) && MaxRate(b.c) == MaxRate(v.Initial())
    requires a.initial == Rate(v.Initial()) && v.epoch <= a.start
    ensures BooksOk(v, buckets[o := b], books[o := a], now)
  {
    forall n | n in buckets && n != o ensures Balanced(LedgerOf(buckets, books, now, n)) {}
  }

  lemma RefillBooks(v: Server, buckets: map<nat, Bucket>, books: map<nat, Account>, now: nat, o: nat)
    requires BooksOk(v, buckets, books, now) && o in buckets
    ensures BooksOk(v, buckets[o := Refill(buckets[o], now)], books, now)
  {
    TakeBalances(LedgerOf(buckets, books, now, o), Refills(now));
    SetBooks(v, buckets, books, now, o, Refill(buckets[o], now), books[o]);
    assert books[o := books[o]] == books;
  }

  lemma PressBooks(v: Server, buckets: map<nat, Bucket>, books: map<nat, Account>, now: nat, o: nat)
    requires BooksOk(v, buckets, books, now) && o in buckets
    ensures BooksOk(v, PassOver(buckets, o, now), books, now)
  {
    var l := LedgerOf(buckets, books, now, o);
    TakeBalances(l, Refills(now));
    TakeBalances(Take(l, Refills(now)), Presses(now));
    SetBooks(v, buckets, books, now, o, Pressed(Refill(buckets[o], now), now), books[o]);
    assert books[o := books[o]] == books;
  }

  lemma SpendBooks(v: Server, buckets: map<nat, Bucket>, books: map<nat, Account>, now: nat, o: nat, bytes: nat)
    requires BooksOk(v, buckets, books, now) && o in buckets && bytes <= Refill(buckets[o], now).budget
    ensures var b := Refill(buckets[o], now);
      BooksOk(v, buckets[o := b.(budget := b.budget - bytes)], Spend(books, o, bytes), now)
  {
    var l := LedgerOf(buckets, books, now, o);
    TakeBalances(l, Refills(now));
    TakeBalances(Take(l, Refills(now)), Spends(bytes));
    var b := Refill(buckets[o], now);
    SetBooks(v, buckets, books, now, o, b.(budget := b.budget - bytes), books[o].(spent := books[o].spent + bytes));
  }

  ghost function BooksAfter(books: map<nat, Account>, pending: seq<Parcel>, found: Found): map<nat, Account> {
    if found.Sends? && found.k < |pending| && pending[found.k].owner in books then
      Spend(books, pending[found.k].owner, |pending[found.k].bytes|)
    else books
  }

  lemma TakenBooks(v: Server, pending: seq<Parcel>, buckets: map<nat, Bucket>, books: map<nat, Account>, k: nat,
                   now: nat)
    requires k < |pending| && BooksOk(v, buckets, books, now) && books.Keys == buckets.Keys
    requires !Blocked(buckets, pending[k], now) && pending[k].owner in buckets && pending[k].owner != 0
    ensures BooksOk(v, Try(buckets, pending[k], k, now, P.Taken).0, BooksAfter(books, pending, Sends(k)), now)
  {
    SpendBooks(v, buckets, books, now, pending[k].owner, |pending[k].bytes|);
  }

  lemma TryBooks(v: Server, pending: seq<Parcel>, buckets: map<nat, Bucket>, books: map<nat, Account>, k: nat, now: nat,
                 reply: P.Reply)
    requires k < |pending| && BooksOk(v, buckets, books, now) && books.Keys == buckets.Keys
    requires !Blocked(buckets, pending[k], now)
    ensures var (buckets', found) := Try(buckets, pending[k], k, now, reply);
      BooksOk(v, buckets', BooksAfter(books, pending, found), now) && buckets'.Keys == buckets.Keys
  {
    var o := pending[k].owner;
    if o in buckets {
      assert o != 0;
      match reply
      case Taken => TakenBooks(v, pending, buckets, books, k, now);
      case WouldBlock => PressBooks(v, buckets, books, now, o);
      case Broken => RefillBooks(v, buckets, books, now, o);
    }
  }

  lemma {:induction false} ScanBooks(v: Server, pending: seq<Parcel>, buckets: map<nat, Bucket>,
                                     books: map<nat, Account>, k: nat, now: nat, reply: P.Reply)
    requires k <= |pending| && BooksOk(v, buckets, books, now) && books.Keys == buckets.Keys
    ensures var (buckets', found) := Scan(pending, buckets, k, now, reply);
      BooksOk(v, buckets', BooksAfter(books, pending, found), now) && buckets'.Keys == buckets.Keys
    decreases |pending| - k
  {
    if k < |pending| {
      if Blocked(buckets, pending[k], now) {
        PressBooks(v, buckets, books, now, pending[k].owner);
        ScanBooks(v, pending, PassOver(buckets, pending[k].owner, now), books, k + 1, now, reply);
      } else {
        TryBooks(v, pending, buckets, books, k, now, reply);
      }
    }
  }

  // ---------------------------------------------------------------- order and conservation

  // Descending priority, and in the order of queueing within a priority.
  ghost predicate Before(p: Parcel, q: Parcel) {
    p.priority.Rank() > q.priority.Rank() || (p.priority == q.priority && p.serial < q.serial)
  }

  ghost predicate Sorted(pending: seq<Parcel>) {
    forall i, j | 0 <= i < j < |pending| :: Before(pending[i], pending[j])
  }

  // A packet still waiting was overtaken, by a packet of its session and priority queued after it, only if it is
  // longer.
  ghost predicate Fair(sent: seq<Parcel>, pending: seq<Parcel>) {
    forall y, x | y in sent && x in pending && x.owner == y.owner && x.priority == y.priority && x.serial < y.serial ::
      x.owner != 0 && |x.bytes| > |y.bytes|
  }

  // Every packet queued was sent, was dropped or waits, and only one of these.
  ghost predicate Conserved(queued: seq<Parcel>, h: History, pending: seq<Parcel>) {
    multiset(queued) == multiset(h.sent) + multiset(h.dropped) + multiset(pending)
  }

  ghost predicate Numbered(queued: seq<Parcel>) { forall n | 0 <= n < |queued| :: queued[n].serial == n }

  lemma WithoutConserves(pending: seq<Parcel>, k: nat)
    requires k < |pending|
    ensures multiset(pending) == multiset(Without(pending, k)) + multiset{pending[k]}
  {
    assert pending == pending[..k] + [pending[k]] + pending[k + 1..];
  }

  lemma WithoutSorted(pending: seq<Parcel>, k: nat)
    requires k < |pending| && Sorted(pending)
    ensures Sorted(Without(pending, k))
    ensures forall x | x in Without(pending, k) :: x in pending
  {
    var rest := Without(pending, k);
    forall i, j | 0 <= i < j < |rest| ensures Before(rest[i], rest[j]) {
      var i', j' := if i < k then i else i + 1, if j < k then j else j + 1;
      assert rest[i] == pending[i'] && rest[j] == pending[j'];
    }
  }

  // What was queued before packet k at the same priority, and still waits, is ahead of it.
  lemma EarlierIsAhead(pending: seq<Parcel>, k: nat, x: Parcel) returns (j: nat)
    requires Sorted(pending) && k < |pending| && x in Without(pending, k)
    requires x.priority == pending[k].priority && x.serial < pending[k].serial
    ensures j < k && pending[j] == x
  {
    forall i | k < i < |pending| ensures pending[i] != x { assert Before(pending[k], pending[i]); }
    assert x !in pending[k + 1..];
    j :| 0 <= j < k && pending[..k][j] == x;
  }

  lemma SendIsFair(sent: seq<Parcel>, pending: seq<Parcel>, buckets: map<nat, Bucket>, k: nat)
    requires Fair(sent, pending) && Sorted(pending) && k < |pending| && PassesOver(pending, buckets, Sends(k))
    ensures Fair(sent + [pending[k]], Without(pending, k))
  {
    var y, rest := pending[k], Without(pending, k);
    WithoutSorted(pending, k);
    forall x | x in rest && x.owner == y.owner && x.priority == y.priority && x.serial < y.serial
      ensures x.owner != 0 && |x.bytes| > |y.bytes|
    {
      var j := EarlierIsAhead(pending, k, x);
    }
  }

  // ------------------------------------------------------------------------- one round

  datatype World = World(s: Shared, h: History, queued: seq<Parcel>)

  ghost predicate QueueOk(w: World, limit: nat) {
    && w.s.pendingBytes == Size(w.s.pending) && |w.s.pending| <= limit
    && Sorted(w.s.pending) && Fair(w.h.sent, w.s.pending)
    && Conserved(w.queued, w.h, w.s.pending) && Numbered(w.queued)
  }

  ghost predicate Sound(v: Server, w: World, limit: nat) {
    QueueOk(w, limit) && BooksOk(v, w.s.buckets, w.h.books, w.h.clock) && w.h.books.Keys == w.s.buckets.Keys
  }

  lemma RemovedSent(w: World, limit: nat, buckets: map<nat, Bucket>, k: nat, now: nat)
    requires QueueOk(w, limit) && k < |w.s.pending| && PassesOver(w.s.pending, w.s.buckets, Sends(k))
    ensures QueueOk(World(Removed(w.s, buckets, k), Booked(w.h, w.s.pending[k], now), w.queued), limit)
  {
    WithoutConserves(w.s.pending, k);
    WithoutSorted(w.s.pending, k);
    SendIsFair(w.h.sent, w.s.pending, w.s.buckets, k);
  }

  lemma RemovedDropped(w: World, limit: nat, buckets: map<nat, Bucket>, k: nat, now: nat)
    requires QueueOk(w, limit) && k < |w.s.pending|
    ensures QueueOk(World(Removed(w.s, buckets, k), Dropped(w.h, w.s.pending[k], now), w.queued), limit)
  {
    WithoutConserves(w.s.pending, k);
    WithoutSorted(w.s.pending, k);
  }

  ghost predicate Ticks(clock: nat -> nat, v: Server, i: nat) { clock(i) <= clock(i + 1) && v.InTime(clock(i)) }

  ghost predicate Steady(clock: nat -> nat, v: Server) { forall i: nat :: Ticks(clock, v, i) }

  lemma BooksTimely(v: Server, buckets: map<nat, Bucket>, books: map<nat, Account>, clock: nat, now: nat)
    requires BooksOk(v, buckets, books, clock) && v.InTime(now)
    ensures AllTimely(buckets, now)
  {
    forall o | o in buckets ensures Timely(buckets[o], now) {
      assert Balanced(LedgerOf(buckets, books, clock, o));
      var last := buckets[o].lastRefillMs;
      if last < now { Scales(now - last, now - v.epoch, MaxRate(v.Initial())); }
    }
  }

  // What a round leaves: the world after a packet went out, was dropped, or nothing moved.
  ghost function After(w: World, buckets: map<nat, Bucket>, found: Found, now: nat): World
    requires w.s.pendingBytes == Size(w.s.pending) && (found.Sends? || found.Drops? ==> found.k < |w.s.pending|)
  {
    match found
    case Sends(k) => World(Removed(w.s, buckets, k), Booked(w.h, w.s.pending[k], now), w.queued)
    case Drops(k) => World(Removed(w.s, buckets, k), Dropped(w.h, w.s.pending[k], now), w.queued)
    case _ => World(w.s.(buckets := buckets), w.h.(clock := now), w.queued)
  }

  lemma AfterBooks(w: World, buckets: map<nat, Bucket>, found: Found, now: nat)
    requires w.s.pendingBytes == Size(w.s.pending) && (found.Sends? || found.Drops? ==> found.k < |w.s.pending|)
    ensures var w' := After(w, buckets, found, now);
      w'.s.buckets == buckets && w'.h.books == BooksAfter(w.h.books, w.s.pending, found) && w'.h.clock == now
      && w'.h.books.Keys == w.h.books.Keys && w'.queued == w.queued
  {
  }

  lemma AfterSound(v: Server, w: World, limit: nat, buckets: map<nat, Bucket>, found: Found, now: nat)
    requires QueueOk(w, limit) && (found.Sends? || found.Drops? ==> found.k < |w.s.pending|)
    requires PassesOver(w.s.pending, w.s.buckets, found) && buckets.Keys == w.h.books.Keys
    requires BooksOk(v, buckets, BooksAfter(w.h.books, w.s.pending, found), now)
    ensures Sound(v, After(w, buckets, found, now), limit)
  {
    AfterBooks(w, buckets, found, now);
    match found
    case Sends(k) => RemovedSent(w, limit, buckets, k, now);
    case Drops(k) => RemovedDropped(w, limit, buckets, k, now);
    case Breaks =>
    case Stops =>
    case Ends =>
  }

  lemma RoundSound(v: Server, w: World, limit: nat, now: nat, reply: P.Reply)
    requires Sound(v, w, limit) && w.h.clock <= now && v.InTime(now)
    ensures var (buckets, found) := Scan(w.s.pending, w.s.buckets, 0, now, reply);
      Sound(v, After(w, buckets, found, now), limit)
  {
    var (buckets, found) := Scan(w.s.pending, w.s.buckets, 0, now, reply);
    LaterBooksOk(v, w.s.buckets, w.h.books, w.h.clock, now);
    BooksTimely(v, w.s.buckets, w.h.books, now, now);
    ScanBooks(v, w.s.pending, w.s.buckets, w.h.books, 0, now, reply);
    ScanPassesOver(w.s.pending, w.s.buckets, 0, now, reply);
    AfterSound(v, w, limit, buckets, found, now);
  }

  lemma {:induction false} FlushSound(v: Server, w: World, limit: nat, i: nat, clock: nat -> nat,
                                      socket: nat -> P.Reply)
    requires Sound(v, w, limit) && w.h.clock <= clock(i) && Steady(clock, v)
    ensures var (s, h, _) := Flush(w.s, w.h, i, clock, socket); Sound(v, World(s, h, w.queued), limit)
    decreases |w.s.pending|
  {
    assert Ticks(clock, v, i);
    RoundSound(v, w, limit, clock(i), socket(i));
    var (buckets, found) := Scan(w.s.pending, w.s.buckets, 0, clock(i), socket(i));
    if found.Sends? || found.Drops? {
      FlushSound(v, After(w, buckets, found, clock(i)), limit, i + 1, clock, socket);
    }
  }

  // ------------------------------------------------------------------------- queueing

  // What is waiting or was sent was queued.
  lemma WasQueued(w: World, limit: nat, x: Parcel)
    requires QueueOk(w, limit) && (x in w.s.pending || x in w.h.sent)
    ensures x.serial < |w.queued|
  {
    assert x in multiset(w.s.pending) || x in multiset(w.h.sent);
    assert x in multiset(w.queued);
    var n :| 0 <= n < |w.queued| && w.queued[n] == x;
  }

  lemma InsertedSorted(pending: seq<Parcel>, p: Parcel)
    requires Sorted(pending) && forall x | x in pending :: x.serial < p.serial
    ensures Sorted(Inserted(pending, p))
  {
    var k := InsertAt(pending, p.priority.Rank());
    var q := Inserted(pending, p);
    forall j | k <= j < |pending| ensures Before(p, pending[j]) {
      assert k < j ==> Before(pending[k], pending[j]);
    }
    forall i | 0 <= i < k ensures Before(pending[i], p) { assert pending[i] in pending; }
    forall i, j | 0 <= i < j < |q| ensures Before(q[i], q[j]) {
      assert i != k ==> q[i] == pending[if i < k then i else i - 1];
      assert j != k ==> q[j] == pending[if j < k then j else j - 1];
    }
  }

  lemma InsertedHolds(pending: seq<Parcel>, p: Parcel)
    ensures multiset(Inserted(pending, p)) == multiset(pending) + multiset{p}
    ensures Size(Inserted(pending, p)) == Size(pending) + |p.bytes| && |Inserted(pending, p)| == |pending| + 1
  {
    var k := InsertAt(pending, p.priority.Rank());
    assert pending == pending[..k] + pending[k..];
    SizeAppend(pending[..k] + [p], pending[k..]);
    SizeAppend(pending[..k], [p]);
    SizeAppend(pending[..k], pending[k..]);
    SizeOne(p);
  }

  ghost function Queued(w: World, limit: nat, p: Parcel): World {
    if |w.s.pending| >= limit then w
    else
      World(w.s.(pending := Inserted(w.s.pending, p), pendingBytes := w.s.pendingBytes + |p.bytes|), w.h,
            w.queued + [p])
  }

  lemma InsertedIs(pending: seq<Parcel>, p: Parcel, x: Parcel)
    ensures x in Inserted(pending, p) <==> x == p || x in pending
  {
    var k := InsertAt(pending, p.priority.Rank());
    assert pending == pending[..k] + pending[k..];
  }

  // A packet queued last was not overtaken yet.
  lemma InsertedFair(sent: seq<Parcel>, pending: seq<Parcel>, p: Parcel)
    requires Fair(sent, pending) && forall x | x in sent :: x.serial < p.serial
    ensures Fair(sent, Inserted(pending, p))
  {
    forall x ensures x in Inserted(pending, p) <==> x == p || x in pending { InsertedIs(pending, p, x); }
  }

  lemma QueuedOk(w: World, limit: nat, p: Parcel)
    requires QueueOk(w, limit) && p.serial == |w.queued|
    ensures QueueOk(Queued(w, limit, p), limit)
  {
    if |w.s.pending| < limit {
      forall x | x in w.s.pending || x in w.h.sent ensures x.serial < p.serial { WasQueued(w, limit, x); }
      InsertedSorted(w.s.pending, p);
      InsertedHolds(w.s.pending, p);
      InsertedFair(w.h.sent, w.s.pending, p);
    }
  }

  // ------------------------------------------------------------------------------ runs

  datatype Op =
    | Queues(owner: nat, bytes: seq<byte>, priority: Priority)
    | Flushes(clock: nat -> nat, socket: nat -> P.Reply)
    | Opens(owner: nat, now: nat)
    | Closes(owner: nat)
    | Hears(owner: nat, sample: Option<nat>, retransmitted: bool)     // an acknowledgement reaches the session
    | Misses(owner: nat, now: nat, count: nat)                        // its messages timed out

  ghost predicate Legal(v: Server, w: World, op: Op) {
    match op
    case Queues(_, _, _) => true
    case Flushes(clock, _) => w.h.clock <= clock(0) && Steady(clock, v)
    case Opens(owner, now) => owner != 0 && owner !in w.s.buckets && w.h.clock <= now && v.epoch <= now && now > 0
    case Closes(_) => true
    case Hears(owner, _, _) => owner in w.s.buckets
    case Misses(owner, now, _) => owner in w.s.buckets && w.h.clock <= now
  }

  ghost function WithBucket(w: World, o: nat, b: Bucket, now: nat): World {
    w.(s := w.s.(buckets := w.s.buckets[o := b]), h := w.h.(clock := now))
  }

  ghost function Apply(v: Server, limit: nat, w: World, op: Op): World
    requires Legal(v, w, op) && w.s.pendingBytes == Size(w.s.pending)
  {
    match op
    case Queues(owner, bytes, priority) => Queued(w, limit, Parcel(owner, bytes, priority, |w.queued|))
    case Flushes(clock, socket) => var (s, h, _) := Flush(w.s, w.h, 0, clock, socket); World(s, h, w.queued)
    case Opens(owner, now) =>
      var l := Opening(v.cfg, v.sendRate, now);
      WithBucket(w, owner, l.b, now).(h := w.h.(books := w.h.books[owner := Account(0, now, l.initial)], clock := now))
    case Closes(owner) =>
      w.(s := w.s.(buckets := w.s.buckets - {owner}), h := w.h.(books := w.h.books - {owner}))
    case Hears(owner, sample, retransmitted) =>
      var b := w.s.buckets[owner]; WithBucket(w, owner, b.(c := OnAck(b.c, sample, retransmitted)), w.h.clock)
    case Misses(owner, now, count) =>
      var b := w.s.buckets[owner]; WithBucket(w, owner, Capped(b, OnLoss(b.c, now, count)), now)
  }

  lemma EventBooks(v: Server, buckets: map<nat, Bucket>, books: map<nat, Account>, clock: nat, now: nat, o: nat,
                   step: Step)
    requires BooksOk(v, buckets, books, clock) && o in buckets
    requires clock <= now && (step.Acks? || (step.Loses? && step.now == now))
    ensures BooksOk(v, buckets[o := Take(LedgerOf(buckets, books, now, o), step).b], books, now)
  {
    LaterBooksOk(v, buckets, books, clock, now);
    var l := LedgerOf(buckets, books, now, o);
    TakeBalances(l, step);
    SetBooks(v, buckets, books, now, o, Take(l, step).b, books[o]);
    assert books[o := books[o]] == books;
  }

  lemma OpenBooks(v: Server, buckets: map<nat, Bucket>, books: map<nat, Account>, clock: nat, now: nat, o: nat)
    requires v.cfg.Valid(v.sendRate) && BooksOk(v, buckets, books, clock)
    requires clock <= now && v.epoch <= now && now > 0 && o != 0
    ensures var l := Opening(v.cfg, v.sendRate, now);
      BooksOk(v, buckets[o := l.b], books[o := Account(0, now, l.initial)], now)
  {
    LaterBooksOk(v, buckets, books, clock, now);
    ConfigureIsValid(v.cfg, v.sendRate);
    forall n | n in buckets && n != o ensures Balanced(LedgerOf(buckets, books, now, n)) {}
  }

  lemma CloseBooks(v: Server, buckets: map<nat, Bucket>, books: map<nat, Account>, clock: nat, o: nat)
    requires BooksOk(v, buckets, books, clock)
    ensures BooksOk(v, buckets - {o}, books - {o}, clock)
  {
    forall n | n in buckets - {o} ensures Balanced(LedgerOf(buckets, books, clock, n)) {}
  }

  lemma OpenSound(v: Server, limit: nat, w: World, o: nat, now: nat)
    requires v.cfg.Valid(v.sendRate) && Sound(v, w, limit)
    requires Legal(v, w, Opens(o, now))
    ensures Sound(v, Apply(v, limit, w, Opens(o, now)), limit)
  {
    OpenBooks(v, w.s.buckets, w.h.books, w.h.clock, now, o);
  }

  lemma CloseSound(v: Server, limit: nat, w: World, o: nat)
    requires Sound(v, w, limit)
    ensures Sound(v, Apply(v, limit, w, Closes(o)), limit)
  {
    CloseBooks(v, w.s.buckets, w.h.books, w.h.clock, o);
  }

  lemma HearBooks(v: Server, buckets: map<nat, Bucket>, books: map<nat, Account>, clock: nat, o: nat,
                  sample: Option<nat>, retransmitted: bool)
    requires BooksOk(v, buckets, books, clock) && o in buckets
    ensures var b := buckets[o]; BooksOk(v, buckets[o := b.(c := OnAck(b.c, sample, retransmitted))], books, clock)
  {
    EventBooks(v, buckets, books, clock, clock, o, Acks(sample, retransmitted));
  }

  lemma SoundWith(v: Server, w: World, limit: nat, o: nat, b: Bucket, now: nat)
    requires Sound(v, w, limit) && o in w.s.buckets && BooksOk(v, w.s.buckets[o := b], w.h.books, now)
    ensures Sound(v, WithBucket(w, o, b, now), limit)
  {
  }

  lemma HearSound(v: Server, limit: nat, w: World, o: nat, sample: Option<nat>, retransmitted: bool)
    requires Sound(v, w, limit) && o in w.s.buckets
    ensures Sound(v, Apply(v, limit, w, Hears(o, sample, retransmitted)), limit)
  {
    var b := w.s.buckets[o];
    HearBooks(v, w.s.buckets, w.h.books, w.h.clock, o, sample, retransmitted);
    SoundWith(v, w, limit, o, b.(c := OnAck(b.c, sample, retransmitted)), w.h.clock);
  }

  lemma MissSound(v: Server, limit: nat, w: World, o: nat, now: nat, count: nat)
    requires Sound(v, w, limit) && o in w.s.buckets && w.h.clock <= now
    ensures Sound(v, Apply(v, limit, w, Misses(o, now, count)), limit)
  {
    EventBooks(v, w.s.buckets, w.h.books, w.h.clock, now, o, Loses(now, count));
  }

  lemma ApplySound(v: Server, limit: nat, w: World, op: Op)
    requires v.cfg.Valid(v.sendRate) && Sound(v, w, limit) && Legal(v, w, op)
    ensures Sound(v, Apply(v, limit, w, op), limit)
  {
    match op
    case Queues(owner, bytes, priority) => QueuedOk(w, limit, Parcel(owner, bytes, priority, |w.queued|));
    case Flushes(clock, socket) => FlushSound(v, w, limit, 0, clock, socket);
    case Opens(owner, now) => OpenSound(v, limit, w, owner, now);
    case Closes(owner) => CloseSound(v, limit, w, owner);
    case Hears(owner, sample, retransmitted) => HearSound(v, limit, w, owner, sample, retransmitted);
    case Misses(owner, now, count) => MissSound(v, limit, w, owner, now, count);
  }

  const EMPTY := World(Shared([], 0, map[]), History(map[], [], [], 0), [])

  ghost predicate Next(v: Server, limit: nat, w: World, op: Op, w': World) {
    && Legal(v, w, op)
    && (w.s.pendingBytes == Size(w.s.pending) ==> w' == Apply(v, limit, w, op))
  }

  ghost predicate IsRun(v: Server, limit: nat, worlds: seq<World>, ops: seq<Op>) {
    && |worlds| == |ops| + 1 && worlds[0] == EMPTY
    && forall n | 0 <= n < |ops| :: Next(v, limit, worlds[n], ops[n], worlds[n + 1])
  }

  // In every reachable state of the server: the shared queue is in order and within its limit, every packet queued was
  // sent, was dropped or waits, no packet was overtaken by one of its session and priority that is as long or longer,
  // and the ledger of every session balances, whatever the other sessions do.
  lemma {:induction false} RunIsSound(v: Server, limit: nat, worlds: seq<World>, ops: seq<Op>)
    requires v.cfg.Valid(v.sendRate) && IsRun(v, limit, worlds, ops)
    ensures Sound(v, worlds[|ops|], limit)
    decreases |ops|
  {
    var n := |ops|;
    if n > 0 {
      RunIsSound(v, limit, worlds[..n], ops[..n - 1]);
      assert Next(v, limit, worlds[n - 1], ops[n - 1], worlds[n - 1 + 1]);
      ApplySound(v, limit, worlds[n - 1], ops[n - 1]);
    }
  }

  // No session sends more than its opening budget and the fastest rate over the time since it was opened.
  lemma EverySessionIsPaced(v: Server, limit: nat, worlds: seq<World>, ops: seq<Op>, o: nat)
    requires v.cfg.Valid(v.sendRate) && IsRun(v, limit, worlds, ops) && o in worlds[|ops|].s.buckets
    ensures var w := worlds[|ops|];
      && o in w.h.books && w.h.books[o].start <= w.h.clock
      && 1000 * w.h.books[o].spent <= 1000 * Rate(v.Initial()) + MaxRate(v.Initial()) * (w.h.clock - w.h.books[o].start)
  {
    RunIsSound(v, limit, worlds, ops);
    var w := worlds[|ops|];
    var l := LedgerOf(w.s.buckets, w.h.books, w.h.clock, o);
    assert Balanced(l);
    Scales(l.b.lastRefillMs - l.start, l.clock - l.start, MaxRate(v.Initial()));
  }

  // --------------------------------------------------------- first in, first out fails

  // First in, first out within a session and a priority fails: a shorter packet that the budget still covers goes out
  // before a longer one queued earlier.
  lemma ShorterOvertakes(b: Bucket, now: nat, first: Parcel, second: Parcel)
    requires Timely(b, now) && b.lastRefillMs == now
    requires first.owner == second.owner == 1 && first.priority == second.priority && first.serial < second.serial
    requires |second.bytes| <= Pressed(b, now).budget && b.budget < |first.bytes|
    ensures Sorted([first, second]) && Scan([first, second], map[1 := b], 0, now, P.Taken).1 == Sends(1)
  {
    var pending, buckets := [first, second], map[1 := b];
    assert Blocked(buckets, pending[0], now);
    assert !Blocked(PassOver(buckets, 1, now), pending[1], now);
  }

  // An instance: a budget of 100 bytes, and packets of 200 and 50 bytes.
  lemma FiftyOvertakes(cfg: CongestionConfig, b: Bucket, first: Parcel, second: Parcel)
    requires !cfg.enabled && b == Bucket(Configure(cfg, 100), 100, 1)
    requires first == Parcel(1, seq(200, i => 0), Normal, 0) && second == Parcel(1, seq(50, i => 0), Normal, 1)
    ensures Sorted([first, second]) && Scan([first, second], map[1 := b], 0, 1, P.Taken).1 == Sends(1)
  {
    var pending, buckets := [first, second], map[1 := b];
    assert Blocked(buckets, pending[0], 1);
    assert !Blocked(PassOver(buckets, 1, 1), pending[1], 1);
  }

  // Exactly when it holds: among the packets of a session that a walk may send, the first one goes if and only if the
  // session's budget covers it.
  lemma {:induction false} FirstGoesIff(pending: seq<Parcel>, buckets: map<nat, Bucket>, i: nat, k: nat, now: nat,
                                        reply: P.Reply, found: Found)
    requires i <= k < |pending| && pending[k].owner != 0 && pending[k].owner in buckets
    requires forall j | i <= j < k :: pending[j].owner != pending[k].owner
    requires found == Scan(pending, buckets, i, now, reply).1 && found.Sends?
    requires pending[found.k].owner == pending[k].owner
    ensures found.k == k <==> |pending[k].bytes| <= Refill(buckets[pending[k].owner], now).budget
    decreases k - i
  {
    if i < k && Blocked(buckets, pending[i], now) {
      FirstGoesIff(pending, PassOver(buckets, pending[i].owner, now), i + 1, k, now, reply, found);
    }
  }

  // ----------------------------------------------------------------------------- class

  // One round of the outer loop.
  lemma FlushStep(s: Shared, h: History, i: nat, clock: nat -> nat, socket: nat -> P.Reply, queued: seq<Parcel>)
    requires s.pendingBytes == Size(s.pending)
    ensures var (buckets, found) := Scan(s.pending, s.buckets, 0, clock(i), socket(i));
      var w := After(World(s, h, queued), buckets, found, clock(i));
      Flush(s, h, i, clock, socket) ==
        if found.Sends? || found.Drops? then Flush(w.s, w.h, i + 1, clock, socket)
        else (w.s, w.h, if found.Breaks? then Err(StateError) else Ok)
  {
  }

  class SharedQueue {
    const maxPendingPackets: nat
    var pending: seq<Parcel>
    var pendingBytes: nat
    var buckets: map<nat, Bucket>
    ghost var history: History

    ghost function Value(): Shared reads this { Shared(pending, pendingBytes, buckets) }

    constructor (maxPendingPackets: nat)
      ensures Value() == EMPTY.s && history == EMPTY.h && this.maxPendingPackets == maxPendingPackets
    {
      this.maxPendingPackets := maxPendingPackets;
      pending, pendingBytes, buckets, history := [], 0, map[], EMPTY.h;
    }

    // enqueue_pending_packet
    method EnqueuePending(p: Parcel, ghost queued: seq<Parcel>) returns (rc: Status)
      modifies `pending, `pendingBytes
      ensures rc == if |old(pending)| >= maxPendingPackets then Err(QueueFull) else Ok
      ensures Value() == Queued(World(old(Value()), history, queued), maxPendingPackets, p).s
    {
      if |pending| >= maxPendingPackets { return Err(QueueFull); }
      var at, rank := 0, p.priority.Rank();
      ghost var packets := PacketsOf(pending);
      assert packets[0..] == packets;
      while at < |pending| && pending[at].priority.Rank() >= rank
        invariant at <= |pending| && pending == old(pending)
        invariant P.InsertAt(packets, rank) == at + P.InsertAt(packets[at..], rank)
      {
        assert packets[at..][1..] == packets[at + 1..];
        at := at + 1;
      }
      pendingBytes := pendingBytes + |p.bytes|;
      pending := pending[..at] + [p] + pending[at..];
      return Ok;
    }

    // The body of the walk: packet p is passed over, or decides how the walk ends.
    method Visit(p: Parcel, k: nat, now: nat, reply: P.Reply) returns (passed: bool, found: Found)
      modifies `buckets
      ensures passed == Blocked(old(buckets), p, now)
      ensures passed ==> buckets == PassOver(old(buckets), p.owner, now)
      ensures !passed ==> (buckets, found) == Try(old(buckets), p, k, now, reply)
    {
      found := match reply case Taken => Sends(k) case WouldBlock => Stops case Broken => Breaks;
      if p.owner == 0 { return false, found; }
      if p.owner !in buckets { return false, Drops(k); }
      var b := Refill(buckets[p.owner], now);
      if b.budget < |p.bytes| {
        buckets := buckets[p.owner := Pressed(b, now)];
        return true, found;
      }
      if reply == P.Taken {
        b := b.(budget := b.budget - |p.bytes|);
      } else if reply == P.WouldBlock {
        b := Pressed(b, now);
      }
      buckets := buckets[p.owner := b];
      return false, found;
    }

    // One walk over the queue.
    method Walk(now: nat, reply: P.Reply) returns (found: Found)
      modifies `buckets
      ensures (buckets, found) == Scan(pending, old(buckets), 0, now, reply)
    {
      var k := 0;
      ghost var goal := Scan(pending, buckets, 0, now, reply);
      while k < |pending|
        invariant k <= |pending| && Scan(pending, buckets, k, now, reply) == goal
      {
        var passed;
        passed, found := Visit(pending[k], k, now, reply);
        if !passed { return; }
        k := k + 1;
      }
      return Ends;
    }

    method Remove(k: nat)
      requires k < |pending| && pendingBytes == Size(pending)
      modifies `pending, `pendingBytes
      ensures Value() == Removed(old(Value()), buckets, k)
    {
      WithoutSize(pending, k);
      pendingBytes := pendingBytes - |pending[k].bytes|;
      pending := pending[..k] + pending[k + 1..];
    }

    // One round of flush_pending: a walk, and the packet it found is taken out.
    method Round(now: nat, reply: P.Reply) returns (found: Found, sent: seq<Parcel>)
      requires pendingBytes == Size(pending)
      modifies this
      ensures pendingBytes == Size(pending) && found == Scan(old(pending), old(buckets), 0, now, reply).1
      ensures World(Value(), history, []) ==
        After(World(old(Value()), old(history), []), Scan(old(pending), old(buckets), 0, now, reply).0, found, now)
      ensures sent == if found.Sends? then [old(pending)[found.k]] else []
    {
      ghost var before := World(Value(), history, []);
      found := Walk(now, reply);
      history := After(before, buckets, found, now).h;
      sent := [];
      if found.Sends? {
        sent := [pending[found.k]];
        Remove(found.k);
      } else if found.Drops? {
        Remove(found.k);
      }
    }

    // flush_pending
    method FlushPending(clock: nat -> nat, socket: nat -> P.Reply) returns (sent: seq<Parcel>, rc: Status)
      requires pendingBytes == Size(pending)
      modifies this
      ensures pendingBytes == Size(pending)
      ensures (Value(), history, rc) == Flush(old(Value()), old(history), 0, clock, socket)
      ensures history.sent == old(history).sent + sent
    {
      sent := [];
      var i := 0;
      ghost var goal, start := Flush(Value(), history, 0, clock, socket), history.sent;
      while true
        invariant pendingBytes == Size(pending) && history.sent == start + sent
        invariant Flush(Value(), history, i, clock, socket) == goal
        decreases |pending|
      {
        FlushStep(Value(), history, i, clock, socket, []);
        var found, out := Round(clock(i), socket(i));
        sent := sent + out;
        if found.Breaks? { return sent, Err(StateError); }
        if !found.Sends? && !found.Drops? { return sent, Ok; }
        i := i + 1;
      }
    }
  }
}
