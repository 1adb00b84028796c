// What a retransmission pass sends, exactly: which messages, in which order, and what it leaves of the others.
module Resending {
  import opened Config
  import opened Codec
  import opened Session
  import T = Retransmission

  // ------------------------------------------------------------------- what is due, on the fields

  ghost predicate Unexpired(p: Pending, now: nat) { p.lifetimeMs == 0 || now < p.enqueuedMs + p.lifetimeMs }

  // Its timer ran out: it was sent, and at least rto_ms ago.
  ghost predicate Overdue(p: Pending, now: nat) { p.inflight && 0 < p.lastSendMs && p.lastSendMs + p.rtoMs <= now }

  // Unexpired, and not in flight or overdue.
  ghost predicate Ready(p: Pending, now: nat) { Unexpired(p, now) && (!p.inflight || Overdue(p, now)) }

  ghost function ReadyIds(q: seq<Pending>, now: nat): seq<nat> {
    if q == [] then []
    else ReadyIds(q[..|q| - 1], now) + if Ready(q[|q| - 1], now) then [q[|q| - 1].id] else []
  }

  // How many of them are not in flight: each takes a place of the inflight limit, a retransmission takes back its own.
  ghost function NewReady(q: seq<Pending>, now: nat): nat {
    if q == [] then 0
    else
      var last := q[|q| - 1];
      NewReady(q[..|q| - 1], now) + if Ready(last, now) && !last.inflight then 1 else 0
  }

  ghost function OverdueCount(q: seq<Pending>, now: nat): nat {
    if q == [] then 0
    else
      var last := q[|q| - 1];
      OverdueCount(q[..|q| - 1], now) + if Ready(last, now) && last.inflight then 1 else 0
  }

  ghost function IdsOf(q: seq<Pending>): seq<nat> { seq(|q|, i requires 0 <= i < |q| => q[i].id) }

  // No place is left for message k when its turn comes.
  ghost predicate Full(s: State, now: nat, k: nat)
    requires k < |s.pending|
  {
    !s.pending[k].inflight && s.inflight + NewReady(s.pending[..k], now) >= s.cfg.maxInflightMessages
  }

  // The pass ends at message k: it is ready, but there is no place or the callback fails.
  ghost predicate Halts(s: State, now: nat, queued: nat -> bool, k: nat)
    requires k < |s.pending|
  {
    Ready(s.pending[k], now) && (Full(s, now, k) || !queued(k))
  }

  // The timer of a retransmitted message doubles, within the limits.
  ghost function NextRto(cfg: ReliabilityConfig, p: Pending): nat {
    if p.inflight then Min(cfg.maxRtoMs, Max(cfg.minRtoMs, W64(p.rtoMs * 2))) else p.rtoMs
  }

  // A message that went out, and one whose callback failed.
  ghost function Resent(cfg: ReliabilityConfig, p: Pending, now: nat): Pending {
    p.(inflight := true, rtoMs := NextRto(cfg, p), lastSendMs := now, sendCount := p.sendCount + 1,
       firstSendMs := if p.firstSendMs == 0 then now else p.firstSendMs)
  }

  ghost function Failed(cfg: ReliabilityConfig, p: Pending): Pending { p.(inflight := false, rtoMs := NextRto(cfg, p)) }

  // What the pass makes of message i when it ends at n.
  ghost function Outcome(s: State, now: nat, n: nat, i: nat): Pending
    requires i < |s.pending|
  {
    if !Ready(s.pending[i], now) || n < i then s.pending[i]
    else if i < n then Resent(s.cfg, s.pending[i], now)
    else Failed(s.cfg, s.pending[i])
  }

  // --------------------------------------------------------------------- the pass so far

  // The first k messages of s are done, none of them ended the pass, and cur is the session now.
  ghost predicate Done(s: State, now: nat, queued: nat -> bool, k: nat, cur: State, sent: seq<Pending>) {
    && k <= |s.pending| == |cur.pending| && cur.cfg == s.cfg
    && (forall i | 0 <= i < k :: !Halts(s, now, queued, i) && cur.pending[i] == Outcome(s, now, k, i))
    && (forall i | k <= i < |s.pending| :: cur.pending[i] == s.pending[i])
    && cur.inflight == s.inflight + NewReady(s.pending[..k], now)
    && cur.lossEvents == s.lossEvents + OverdueCount(s.pending[..k], now)
    && IdsOf(sent) == ReadyIds(s.pending[..k], now)
  }

  // What it came to: it ended at n, or n is the end of the queue.
  ghost predicate Passed(s: State, now: nat, queued: nat -> bool, n: nat, s': State, sent: seq<Pending>, ok: bool) {
    && n <= |s.pending| == |s'.pending|
    && (forall i | 0 <= i < n :: !Halts(s, now, queued, i))
    && (n < |s.pending| ==> Halts(s, now, queued, n))
    && (ok <==> n == |s.pending| || Full(s, now, n))
    && IdsOf(sent) == ReadyIds(s.pending[..n], now)
    && (forall i | 0 <= i < |s.pending| :: s'.pending[i] == Outcome(s, now, n, i))
  }

  lemma Split(q: seq<Pending>, k: nat, now: nat)
    requires k < |q|
    ensures ReadyIds(q[..k + 1], now) == ReadyIds(q[..k], now) + if Ready(q[k], now) then [q[k].id] else []
    ensures NewReady(q[..k + 1], now)
         == NewReady(q[..k], now) + if Ready(q[k], now) && !q[k].inflight then 1 else 0
    ensures OverdueCount(q[..k + 1], now)
         == OverdueCount(q[..k], now) + if Ready(q[k], now) && q[k].inflight then 1 else 0
  {
    assert q[..k + 1][..k] == q[..k];
  }

  lemma SkipDone(s: State, now: nat, queued: nat -> bool, k: nat, cur: State, sent: seq<Pending>)
    requires Done(s, now, queued, k, cur, sent) && k < |s.pending| && !Ready(s.pending[k], now)
    ensures Done(s, now, queued, k + 1, cur, sent)
  {
    Split(s.pending, k, now);
  }

  // Message k is in flight only if the counter says so.
  lemma InflightCounted(s: State, k: nat)
    requires Valid(s) && k < |s.pending| && s.pending[k].inflight
    ensures 0 < s.inflight <= s.cfg.maxInflightMessages
  {
    TotalsAt(s.pending, k);
  }

  ghost function Due(s: State, k: nat): State
    requires k < |s.pending|
  {
    if s.pending[k].inflight then TimeOut(s, k) else s
  }

  lemma DueIs(cur: State, k: nat)
    requires Valid(cur) && k < |cur.pending|
    ensures var s1 := Due(cur, k);
      && Valid(s1) && s1.cfg == cur.cfg && !s1.pending[k].inflight
      && s1.pending == cur.pending[k := Failed(cur.cfg, cur.pending[k])]
      && s1.inflight == cur.inflight - (if cur.pending[k].inflight then 1 else 0)
      && s1.lossEvents == cur.lossEvents + (if cur.pending[k].inflight then 1 else 0)
  {
    if cur.pending[k].inflight {
      InflightCounted(cur, k);
      TimeOutKeepsValid(cur, k);
    } else {
      assert cur.pending == cur.pending[k := cur.pending[k]];
    }
  }

  lemma LaunchIs(s1: State, k: nat, now: nat)
    requires Valid(s1) && k < |s1.pending| && !s1.pending[k].inflight && s1.inflight < s1.cfg.maxInflightMessages
    ensures var s2 := Launch(s1, k, now);
      && Valid(s2) && s2.cfg == s1.cfg && s2.inflight == s1.inflight + 1 && s2.lossEvents == s1.lossEvents
      && s2.pending == s1.pending[k := Resent(s1.cfg, s1.pending[k], now)]
  {
    LaunchKeepsValid(s1, k, now);
  }

  // A due message as it is launched.
  lemma LaunchedIs(cur: State, k: nat, now: nat)
    requires Valid(cur) && k < |cur.pending| && Due(cur, k).inflight < cur.cfg.maxInflightMessages
    ensures var s2 := Launch(Due(cur, k), k, now);
      && Valid(s2) && s2.cfg == cur.cfg && Due(cur, k).pending[k].id == cur.pending[k].id
      && s2.pending == cur.pending[k := Resent(cur.cfg, cur.pending[k], now)]
      && s2.inflight == cur.inflight + (if cur.pending[k].inflight then 0 else 1)
      && s2.lossEvents == cur.lossEvents + (if cur.pending[k].inflight then 1 else 0)
  {
    DueIs(cur, k);
    LaunchIs(Due(cur, k), k, now);
  }

  lemma SendDone(s: State, now: nat, queued: nat -> bool, k: nat, cur: State, sent: seq<Pending>, s2: State, p: Pending)
    requires Done(s, now, queued, k, cur, sent) && k < |s.pending| && Ready(s.pending[k], now)
    requires !Halts(s, now, queued, k) && s2.cfg == cur.cfg && p.id == cur.pending[k].id
    requires s2.pending == cur.pending[k := Resent(cur.cfg, cur.pending[k], now)]
    requires s2.inflight == cur.inflight + (if cur.pending[k].inflight then 0 else 1)
    requires s2.lossEvents == cur.lossEvents + (if cur.pending[k].inflight then 1 else 0)
    ensures Done(s, now, queued, k + 1, s2, sent + [p])
  {
    Split(s.pending, k, now);
    IdsMore(sent, p);
    SendOutcomes(s, now, queued, k, cur, sent, s2);
  }

  lemma SendStep(s: State, now: nat, queued: nat -> bool, k: nat, cur: State, sent: seq<Pending>)
    requires Valid(cur) && Done(s, now, queued, k, cur, sent) && k < |s.pending|
    requires Ready(s.pending[k], now) && !Halts(s, now, queued, k)
    ensures var s1 := Due(cur, k);
      Valid(Launch(s1, k, now)) && Done(s, now, queued, k + 1, Launch(s1, k, now), sent + [s1.pending[k]])
  {
    var s1 := Due(cur, k);
    LimitIs(s, now, queued, k, cur, sent);
    LaunchedIs(cur, k, now);
    SendDone(s, now, queued, k, cur, sent, Launch(s1, k, now), s1.pending[k]);
  }

  lemma IdsMore(sent: seq<Pending>, p: Pending)
    ensures IdsOf(sent + [p]) == IdsOf(sent) + [p.id]
  {
  }

  lemma SendOutcomes(s: State, now: nat, queued: nat -> bool, k: nat, cur: State, sent: seq<Pending>, s2: State)
    requires Done(s, now, queued, k, cur, sent) && k < |s.pending| && Ready(s.pending[k], now)
    requires s2.pending == cur.pending[k := Resent(s.cfg, s.pending[k], now)]
    ensures forall i | 0 <= i < k + 1 :: s2.pending[i] == Outcome(s, now, k + 1, i)
  {
    forall i | 0 <= i < k + 1 ensures s2.pending[i] == Outcome(s, now, k + 1, i) {
      if i < k { assert cur.pending[i] == Outcome(s, now, k, i); }
    }
  }

  // The limit stops the pass exactly at a message that is not in flight when no place is left.
  lemma LimitIs(s: State, now: nat, queued: nat -> bool, k: nat, cur: State, sent: seq<Pending>)
    requires Valid(cur) && Done(s, now, queued, k, cur, sent) && k < |s.pending|
    ensures Due(cur, k).inflight >= cur.cfg.maxInflightMessages <==> Full(s, now, k)
  {
    DueIs(cur, k);
    if s.pending[k].inflight { InflightCounted(cur, k); }
  }

  lemma StopPassed(s: State, now: nat, queued: nat -> bool, k: nat, cur: State, sent: seq<Pending>)
    requires Valid(cur) && Done(s, now, queued, k, cur, sent) && k < |s.pending| && Halts(s, now, queued, k)
    ensures Passed(s, now, queued, k, Due(cur, k), sent, Full(s, now, k))
  {
    DueIs(cur, k);
    var s1 := Due(cur, k);
    forall i | 0 <= i < |s.pending| ensures s1.pending[i] == Outcome(s, now, k, i) {
      if i < k { assert cur.pending[i] == Outcome(s, now, k, i); }
    }
  }

  lemma {:induction false} PassFrom(s: State, now: nat, queued: nat -> bool, k: nat, cur: State, sent: seq<Pending>)
    returns (n: nat)
    requires Valid(cur) && Done(s, now, queued, k, cur, sent)
    ensures var (s', sent', ok) := ResendFrom(cur, k, now, queued, sent);
      Passed(s, now, queued, n, s', sent', ok)
    decreases |s.pending| - k
  {
    if k == |s.pending| {
      n := k;
    } else if !Ready(s.pending[k], now) {
      SkipDone(s, now, queued, k, cur, sent);
      n := PassFrom(s, now, queued, k + 1, cur, sent);
    } else {
      LimitIs(s, now, queued, k, cur, sent);
      if Halts(s, now, queued, k) {
        StopPassed(s, now, queued, k, cur, sent);
        n := k;
      } else {
        var s1 := Due(cur, k);
        SendStep(s, now, queued, k, cur, sent);
        n := PassFrom(s, now, queued, k + 1, Launch(s1, k, now), sent + [s1.pending[k]]);
      }
    }
  }

  // -------------------------------------------------------------------------- the theorems

  // resend_due(): it goes through the queue in order and sends exactly the ready messages, up to the first one that
  // finds no place or whose callback fails; and every message afterwards is as said.
  lemma ResendsExactly(s: State, now: nat, queued: nat -> bool) returns (n: nat)
    requires Valid(s)
    ensures var (s', sent, ok) := ResendDueMessages(s, now, queued); Passed(s, now, queued, n, s', sent, ok)
  {
    assert s.pending[..0] == [];
    n := PassFrom(s, now, queued, 0, s, []);
  }

  lemma {:induction false} ReadyIdsAre(q: seq<Pending>, now: nat, id: nat)
    ensures id in ReadyIds(q, now) <==> exists k :: 0 <= k < |q| && q[k].id == id && Ready(q[k], now)
  {
    if q != [] {
      var n := |q| - 1;
      ReadyIdsAre(q[..n], now, id);
      if id in ReadyIds(q[..n], now) {
        var k :| 0 <= k < n && q[..n][k].id == id && Ready(q[..n][k], now);
        assert q[k].id == id && Ready(q[k], now);
      }
      if k :| 0 <= k < |q| && q[k].id == id && Ready(q[k], now) {
        if k < n { assert q[..n][k].id == id && Ready(q[..n][k], now); }
      }
    }
  }

  lemma {:induction false} NewReadyGrows(q: seq<Pending>, now: nat, k: nat)
    requires k <= |q|
    ensures NewReady(q[..k], now) <= NewReady(q, now)
  {
    if k < |q| {
      var n := |q| - 1;
      NewReadyGrows(q[..n], now, k);
      assert q[..n][..k] == q[..k];
    } else {
      assert q[..k] == q;
    }
  }

  lemma NoHalt(s: State, now: nat, queued: nat -> bool, n: nat)
    requires n < |s.pending| && queued(n) && s.inflight + NewReady(s.pending, now) <= s.cfg.maxInflightMessages
    ensures !Halts(s, now, queued, n)
  {
    Split(s.pending, n, now);
    NewReadyGrows(s.pending, now, n + 1);
  }

  // With a place for each of them and a callback that succeeds, the messages sent are exactly the ready ones.
  lemma AllReadyAreResent(s: State, now: nat, queued: nat -> bool)
    requires Valid(s) && (forall k: nat :: queued(k))
    requires s.inflight + NewReady(s.pending, now) <= s.cfg.maxInflightMessages
    ensures var (s', sent, ok) := ResendDueMessages(s, now, queued);
      && ok && IdsOf(sent) == ReadyIds(s.pending, now)
      && (forall id :: id in IdsOf(sent) <==>
            exists k :: 0 <= k < |s.pending| && s.pending[k].id == id && Ready(s.pending[k], now))
  {
    var n := ResendsExactly(s, now, queued);
    if n < |s.pending| { NoHalt(s, now, queued, n); }
    assert s.pending[..n] == s.pending;
    forall id ensures id in ReadyIds(s.pending, now) <==>
      exists k :: 0 <= k < |s.pending| && s.pending[k].id == id && Ready(s.pending[k], now)
    {
      ReadyIdsAre(s.pending, now, id);
    }
  }

  // ----------------------------------------------------------------------------- the traces

  ghost predicate Distinct(ids: seq<nat>) { forall i, j | 0 <= i < j < |ids| :: ids[i] != ids[j] }

  lemma {:induction false} ReadyIdsDistinct(q: seq<Pending>, now: nat)
    requires Sorted(q)
    ensures Distinct(ReadyIds(q, now))
  {
    if q != [] {
      var n := |q| - 1;
      ReadyIdsDistinct(q[..n], now);
      ReadyIdsAre(q[..n], now, q[n].id);
      forall k | 0 <= k < n ensures q[..n][k].id != q[n].id { assert Before(q[k], q[n]); }
    }
  }

  // Recording the messages of a pass adds its time to exactly their histories.
  lemma {:induction false} RecordIs(sends: map<nat, seq<nat>>, sent: seq<Pending>, now: nat, id: nat)
    requires Distinct(IdsOf(sent)) && id in sends
    ensures id in T.Record(sends, sent, now)
    ensures T.Record(sends, sent, now)[id] == sends[id] + if id in IdsOf(sent) then [now] else []
  {
    if sent == [] {
      assert sends[id] + [] == sends[id];
    } else {
      var n := |sent| - 1;
      var front := sent[..n];
      assert sent == front + [sent[n]];
      IdsMore(front, sent[n]);
      forall i, j | 0 <= i < j < n ensures IdsOf(front)[i] != IdsOf(front)[j] {
        assert IdsOf(sent)[i] != IdsOf(sent)[j];
      }
      RecordIs(sends, front, now, id);
      forall i | 0 <= i < n ensures IdsOf(front)[i] != sent[n].id { assert IdsOf(sent)[i] != IdsOf(sent)[n]; }
      if id == sent[n].id { assert sends[id] + [] == sends[id]; }
    }
  }

  lemma PrefixSorted(q: seq<Pending>, n: nat)
    requires Sorted(q) && n <= |q|
    ensures Sorted(q[..n])
  {
  }

  // In a trace, the pass adds its time to the histories of exactly the messages it sent.
  lemma PassIsRecorded(t: T.Trace, now: nat, queued: nat -> bool) returns (n: nat)
    requires Valid(t.s) && T.Legal(t, T.Resend(now, queued))
    ensures n <= |t.s.pending| && (n < |t.s.pending| ==> Halts(t.s, now, queued, n))
    ensures forall i | 0 <= i < n :: !Halts(t.s, now, queued, i)
    ensures var t' := T.Apply(t, T.Resend(now, queued));
      forall id | id in t.sends ::
        && id in t'.sends
        && t'.sends[id] == t.sends[id] + if id in ReadyIds(t.s.pending[..n], now) then [now] else []
  {
    n := ResendsExactly(t.s, now, queued);
    var sent := ResendDueMessages(t.s, now, queued).1;
    PrefixSorted(t.s.pending, n);
    ReadyIdsDistinct(t.s.pending[..n], now);
    forall id | id in t.sends
      ensures id in T.Record(t.sends, sent, now)
      ensures T.Record(t.sends, sent, now)[id]
           == t.sends[id] + if id in ReadyIds(t.s.pending[..n], now) then [now] else []
    {
      RecordIs(t.sends, sent, now, id);
    }
  }

  // The message was never recorded as sent, or its last interval is over.
  ghost predicate Elapsed(cfg: ReliabilityConfig, times: seq<nat>, r0: nat, now: nat) {
    times == [] || now >= times[|times| - 1] + T.Interval(cfg, r0, |times| - 1)
  }

  lemma ReadyIsElapsed(t: T.Trace, k: nat, now: nat)
    requires T.AllTimed(t.s, t.sends, t.rto0, t.clock) && k < |t.s.pending| && t.clock <= now
    ensures var p := t.s.pending[k];
      && p.id in t.sends && p.id in t.rto0
      && (Ready(p, now) <==> Unexpired(p, now) && Elapsed(t.s.cfg, t.sends[p.id], t.rto0[p.id], now))
  {
    var p := t.s.pending[k];
    assert T.Timed(t.s.cfg, p, t.sends[p.id], t.rto0[p.id], t.clock);
  }

  lemma OneReady(q: seq<Pending>, k: nat, now: nat)
    requires Sorted(q) && k < |q|
    ensures q[k].id in ReadyIds(q, now) <==> Ready(q[k], now)
  {
    ReadyIdsAre(q, now, q[k].id);
    if i :| 0 <= i < |q| && q[i].id == q[k].id && Ready(q[i], now) {
      if i != k { T.OtherIds(q, k, i); }
    }
  }

  lemma WholePassIsRecorded(t: T.Trace, now: nat, queued: nat -> bool)
    requires Valid(t.s) && T.Legal(t, T.Resend(now, queued)) && forall i: nat :: queued(i)
    requires t.s.inflight + NewReady(t.s.pending, now) <= t.s.cfg.maxInflightMessages
    ensures var t' := T.Apply(t, T.Resend(now, queued));
      forall id | id in t.sends ::
        && id in t'.sends
        && t'.sends[id] == t.sends[id] + if id in ReadyIds(t.s.pending, now) then [now] else []
  {
    var n := PassIsRecorded(t, now, queued);
    if n < |t.s.pending| { NoHalt(t.s, now, queued, n); }
    assert t.s.pending[..n] == t.s.pending;
  }

  // In every reachable state, a pass with a place for each message and a callback that succeeds sends exactly the
  // unexpired messages that were never sent or whose last send is at least min(max_rto, r0 * 2^k) ago, k counting the
  // sends before it.
  lemma NoneStaysOverdue(cfg: ReliabilityConfig, ops: seq<T.Op>, now: nat, queued: nat -> bool, k: nat)
    requires T.Usable(cfg) && T.Run(cfg, ops).Some? && T.Legal(T.Run(cfg, ops).value, T.Resend(now, queued))
    requires forall i: nat :: queued(i)
    requires var t := T.Run(cfg, ops).value;
      k < |t.s.pending| && t.s.inflight + NewReady(t.s.pending, now) <= cfg.maxInflightMessages
    ensures var t := T.Run(cfg, ops).value;
      var t', p := T.Apply(t, T.Resend(now, queued)), t.s.pending[k];
      && p.id in t.sends && p.id in t.rto0 && p.id in t'.sends
      && t'.sends[p.id] == t.sends[p.id] +
           if Unexpired(p, now) && Elapsed(cfg, t.sends[p.id], t.rto0[p.id], now) then [now] else []
  {
    T.RunIsSound(cfg, ops);
    var t := T.Run(cfg, ops).value;
    WholePassIsRecorded(t, now, queued);
    ReadyIsElapsed(t, k, now);
    OneReady(t.s.pending, k, now);
  }

  // ------------------------------------------------------------- the other operations, exactly

  // expire_old() leaves exactly the unexpired messages, in their order.
  lemma {:induction false} ExpiresExactly(q: seq<Pending>, now: nat, p: Pending)
    ensures p in Alive(q, now) <==> p in q && Unexpired(p, now)
  {
    if q != [] { ExpiresExactly(q[1..], now, p); }
  }

  // note_sent() marks a pending message if and only if it is in flight or there is a place, and marks no other.
  lemma NotesExactly(s: State, k: nat, now: nat)
    requires Valid(s) && k < |s.pending|
    ensures var p := s.pending[k];
      var (s', ok) := NoteSentMessage(s, p.id, now);
      && (ok <==> p.inflight || s.inflight < s.cfg.maxInflightMessages)
      && s'.pending == if ok then s.pending[k := p.(inflight := true, lastSendMs := now, sendCount := p.sendCount + 1,
           firstSendMs := if p.firstSendMs == 0 then now else p.firstSendMs)] else s.pending
  {
    var i := Find(s.pending, s.pending[k].id);
    if i != k { T.OtherIds(s.pending, k, i); }
  }

  lemma InsertedAll(q: seq<Pending>, p: Pending)
    ensures multiset(Inserted(q, p)) == multiset(q) + multiset{p}
  {
    var k := InsertAt(q, p.priority);
    assert q == q[..k] + q[k..];
  }

  // enqueue(): the message records what it was given, with the present RTO, unsent; and joins the others.
  lemma EnqueuesExactly(s: State, kind: byte, data: seq<byte>, priority: Priority, lifetime: nat, now: nat)
    ensures var (s', r) := EnqueueMessage(s, kind, data, priority, lifetime, now);
      r.Success? ==>
        && r.value.id == s.nextId && r.value.kind == kind && r.value.encoded == EncodeNumbered(s.nextId, data)
        && r.value.priority == priority && r.value.lifetimeMs == lifetime && r.value.enqueuedMs == now
        && r.value.rtoMs == s.rtt.rto && r.value.sendCount == 0 && !r.value.inflight
        && multiset(s'.pending) == multiset(s.pending) + multiset{r.value} && s'.inflight == s.inflight
  {
    InsertedAll(s.pending, NewPending(s.nextId, kind, data, priority, lifetime, now, s.rtt.rto));
  }
}
