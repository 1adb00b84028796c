// What time and packets do to the state of either side, on the fields: time-outs, keepalives and closes.
module Timers {
  import opened Config
  import opened Fragments
  import opened Sums
  import opened Greetings
  import C = Connection
  import P = Pacing
  import R = Reassembly
  import I = Inbound
  import T = SessionTable

  // More than `limit` ms, or at least that, after `since`. A clock behind `since` reads, in 64 bits, as one far ahead.
  predicate Over(now: nat, since: nat, limit: nat) {
    if since <= now then now > since + limit else now + U64_LIMIT > since + limit
  }

  predicate Reached(now: nat, since: nat, limit: nat) {
    if since <= now then now >= since + limit else now + U64_LIMIT >= since + limit
  }

  lemma ElapsedIs(now: nat, since: nat, limit: nat)
    requires since < U64_LIMIT
    ensures Elapsed(now, since) > limit <==> Over(now, since, limit)
    ensures Elapsed(now, since) >= limit <==> Reached(now, since, limit)
  {
  }

  // -------------------------------------------------------------------------- the client

  predicate ClientClock(c: C.Conn) { c.startedMs < U64_LIMIT && c.lastRecvMs < U64_LIMIT && c.lastSendMs < U64_LIMIT }

  predicate Silent(cfg: C.Settings, c: C.Conn, now: nat) {
    c.phase == Established && c.lastRecvMs > 0 && Over(now, c.lastRecvMs, cfg.idleTimeoutMs)
  }

  // run_housekeeping: the phase afterwards.
  lemma ClientPhase(cfg: C.Settings, c: C.Conn, now: nat, frame: C.Load)
    requires ClientClock(c)
    ensures C.Housekeep(cfg, c, now, frame).phase ==
      match c.phase
      case Handshaking =>
        if c.startedMs > 0 && Over(now, c.startedMs, cfg.handshakeTimeoutMs) then Closed else Handshaking
      case Established => if Silent(cfg, c, now) then Closing else Established
      case Closing => if c.lastSendMs > 0 && Reached(now, c.lastSendMs, cfg.closeDrainMs) then Closed else Closing
      case _ => c.phase
  {
    ElapsedIs(now, c.startedMs, cfg.handshakeTimeoutMs);
    ElapsedIs(now, c.lastRecvMs, cfg.idleTimeoutMs);
    ElapsedIs(now, c.lastSendMs, cfg.closeDrainMs);
    C.QueueSamePhase(cfg, c, C.KIND_KEEPALIVE, true, C.Load([], frame.cipher), High);
  }

  // A keepalive is due: nothing was sent for the interval, and the peer is not silent.
  predicate Due(cfg: C.Settings, c: C.Conn, now: nat) {
    && c.phase == Established && !Silent(cfg, c, now)
    && (c.lastSendMs == 0 || Reached(now, c.lastSendMs, cfg.keepaliveIntervalMs))
  }

  // ... and the packet it queues, if any: a close for a silent peer, a keepalive when one is due, and no other.
  lemma ClientPacket(cfg: C.Settings, c: C.Conn, now: nat, frame: C.Load) returns (p: P.Packet)
    requires ClientClock(c) && C.ConnOk(c) && c.connId < U64_LIMIT && c.sequence < U64_LIMIT
    requires |c.pending| < cfg.maxPendingPackets && frame.Fits()
    requires if Due(cfg, c, now) then frame.payload == [] else |frame.payload| <= MAX_ENCRYPTED_PLAINTEXT_BYTES
    ensures var c' := C.Housekeep(cfg, c, now, frame);
      if Silent(cfg, c, now) then
        c'.pending == P.Inserted(c.pending, p) && Carries(p, c, C.KIND_CLOSE, true, c.connId, frame)
      else if Due(cfg, c, now) then
        c'.pending == P.Inserted(c.pending, p) && Carries(p, c, C.KIND_KEEPALIVE, true, c.connId, frame)
      else c'.sealed == c.sealed && c'.pending == if c'.phase == c.phase then c.pending else []
  {
    ElapsedIs(now, c.startedMs, cfg.handshakeTimeoutMs);
    ElapsedIs(now, c.lastRecvMs, cfg.idleTimeoutMs);
    ElapsedIs(now, c.lastSendMs, cfg.keepaliveIntervalMs);
    ElapsedIs(now, c.lastSendMs, cfg.closeDrainMs);
    p := P.Packet([], High);
    if Silent(cfg, c, now) {
      p := QueuedPacket(cfg, c, C.KIND_CLOSE, true, frame, High);
    } else if Due(cfg, c, now) {
      assert frame == C.Load([], frame.cipher);
      p := QueuedPacket(cfg, c, C.KIND_KEEPALIVE, true, frame, High);
    }
  }

  // -------------------------------------------------------------------------- the server

  predicate PeerClock(p: T.Peer) { p.createdMs < U64_LIMIT && p.lastRecvMs < U64_LIMIT && p.lastSendMs < U64_LIMIT }

  // The session's turn: a handshake that takes too long and a silent peer are closed with a packet, a drained close
  // ends, and an established session sends a keepalive when one is due.
  lemma PeerTurn(policy: T.Policy, p: T.Peer, now: nat)
    requires PeerClock(p)
    ensures var p' := T.TendPeer(policy, p, now);
      var silent := p.phase == Established && p.lastRecvMs > 0 && Over(now, p.lastRecvMs, policy.idleTimeoutMs);
      var due := p.lastSendMs == 0 || Reached(now, p.lastSendMs, policy.keepaliveIntervalMs);
      && p'.phase == (match p.phase
                      case Handshaking =>
                        if Over(now, p.createdMs, policy.handshakeTimeoutMs) then Closing else Handshaking
                      case Established => if silent then Closing else Established
                      case Closing =>
                        if p.lastSendMs > 0 && Reached(now, p.lastSendMs, policy.closeDrainMs) then Closed else Closing
                      case _ => p.phase)
      && p'.sealed == p.sealed + (if p.phase == Established && (silent || due) then [p.sendSequence] else [])
      && p'.sendSequence == p.sendSequence + |p'.sealed| - |p.sealed|
      && (forall id :: id in p'.reassembly.entries <==>
            id in p.reassembly.entries &&
            now < p.reassembly.entries[id].lastUpdateMs + policy.fragmentation.reassemblyTimeoutMs)
  {
    ElapsedIs(now, p.createdMs, policy.handshakeTimeoutMs);
    ElapsedIs(now, p.lastRecvMs, policy.idleTimeoutMs);
    ElapsedIs(now, p.lastSendMs, policy.keepaliveIntervalMs);
    ElapsedIs(now, p.lastSendMs, policy.closeDrainMs);
    assert p.sealed + [] == p.sealed;
  }

  // Every other step on one session: what state it is in, how many packet numbers it spent, and when it last heard of
  // its peer. A close, from either side, is answered or announced with one packet; a session that announced one and
  // hears one is closed.
  lemma PeerStep(policy: T.Policy, p: T.Peer, step: T.Step)
    requires T.OnOne(step) && !step.Tend?
    ensures var p', heard := T.Change(policy, p, step), step.Packet? || step.RemoteClose?;
      var over := p.phase == Closing || p.phase == Closed;
      && p'.phase == (if step.Packet? then (if p.phase == Handshaking then Established else p.phase)
                      else if step.RemoteClose? then (if over then Closed else Closing)
                      else if step.Close? then (if step.sendClose && p.phase != Closed then Closing else Closed)
                      else p.phase)
      && p'.sealed == p.sealed + (if step.Seal? ||
                                     (step.RemoteClose? && (p.phase == Handshaking || p.phase == Established)) ||
                                     (step.Close? && step.sendClose && (p.phase == Established || p.phase == Closing))
                                  then [p.sendSequence] else [])
      && p'.lastRecvMs == (if heard then step.now else p.lastRecvMs)
      && p'.lastSendMs == (if step.Sent? then step.now else p.lastSendMs)
  {
    assert p.sealed + [] == p.sealed;
  }

  // --------------------------------------------------------- fragments of a server's session

  // The server's check of its whole reassembly memory is what the receiver calls roomy, and the session's reassembler
  // becomes what the receiver's does.
  lemma SameReassembly(policy: T.Policy, t: T.Table, id: nat, now: nat, f: Fragment, limits: I.Limits, r: I.Receiver)
    requires id in t.sessions && R.Consistent(r.reassembly) && r.reassembly == t.sessions[id].reassembly
    requires limits.fragmentation == policy.fragmentation
    ensures var t' := T.TakeFragment(policy, t, id, now, f, I.Deliverable());
      var roomy := Sum(T.Memory(t.sessions)) + f.length <= policy.maxTotalReassemblyMemory;
      && id in t'.sessions && t'.sessions[id].reassembly == I.HandleFragment(limits, r, now, f, roomy).r.reassembly
      && t'.sessions[id].(reassembly := r.reassembly) == t.sessions[id]
      && forall k | k in t.sessions && k != id :: k in t'.sessions && t'.sessions[k] == t.sessions[k]
  {
  }
}
