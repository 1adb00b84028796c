// The server's session table with its endpoint index: registration, limits, eviction, closing,
// and the memory all reassemblers share.
module SessionTable {
  import opened Config
  import opened Fragments
  import opened Nonces
  import opened Sums
  import R = Reassembly

  datatype Endpoint = Endpoint(host: string, port: nat)

  datatype Policy = Policy(
    maxPeerSessions: nat, maxSessionsPerIp: nat, maxTotalReassemblyMemory: nat,
    handshakeTimeoutMs: nat, idleTimeoutMs: nat, keepaliveIntervalMs: nat, closeDrainMs: nat,
    fragmentation: FragmentationConfig, resumption: bool)

  datatype Peer = Peer(
    endpoint: Endpoint, connId: nat, peerId: nat, phase: Phase, createdMs: nat, lastRecvMs: nat, lastSendMs: nat,
    sendSequence: nat, reassembly: R.State,
    // history: the numbers of the packets encrypted for this session
    sealed: seq<nat>)

  datatype Table = Table(sessions: map<nat, Peer>, index: map<Endpoint, nat>, nextPeerId: nat)

  const NO_SESSIONS := Table(map[], map[], 1)

  // ------------------------------------------------------------- one session at a time

  // An encrypted packet takes the session's next number.
  function SealOne(p: Peer): Peer { p.(sendSequence := p.sendSequence + 1, sealed := p.sealed + [p.sendSequence]) }

  // close_session
  function ClosePeer(p: Peer, sendClose: bool): Peer {
    if sendClose && p.phase != Closed then
      (if p.phase == Established || p.phase == Closing then SealOne(p) else p).(phase := Closing)
    else p.(phase := Closed)
  }

  // handle_session_packet on a packet that decrypted and was not a replay
  function HearPeer(p: Peer, now: nat): Peer {
    p.(lastRecvMs := now, phase := if p.phase == Handshaking then Established else p.phase)
  }

  // ... when it was a valid close packet
  function HearClose(p: Peer, now: nat): Peer {
    var p1 := HearPeer(p, now);
    if p1.phase != Closing then ClosePeer(p1, true) else p1.(phase := Closed)
  }

  // The session's turn in run_housekeeping
  ghost function TendPeer(policy: Policy, p: Peer, now: nat): Peer {
    var p1 := p.(reassembly := R.Unexpired(policy.fragmentation, p.reassembly, now));
    if p.phase == Handshaking && Elapsed(now, p.createdMs) > policy.handshakeTimeoutMs then ClosePeer(p1, true)
    else if p.phase == Established && p.lastRecvMs != 0 && Elapsed(now, p.lastRecvMs) > policy.idleTimeoutMs then
      ClosePeer(p1, true)
    else if p.phase == Established &&
            (p.lastSendMs == 0 || Elapsed(now, p.lastSendMs) >= policy.keepaliveIntervalMs) then
      SealOne(p1)
    else if Drained(policy, p, now) then p1.(phase := Closed)
    else p1
  }

  predicate Drained(policy: Policy, p: Peer, now: nat) {
    p.phase == Closing && p.lastSendMs != 0 && Elapsed(now, p.lastSendMs) >= policy.closeDrainMs
  }

  // ---------------------------------------------------------------------- the table

  function Evict(t: Table, id: nat): Table {
    if id !in t.sessions then t
    else t.(sessions := t.sessions - {id}, index := t.index - {t.sessions[id].endpoint})
  }

  predicate Stale(policy: Policy, p: Peer, now: nat) { p.phase == Closed || Drained(policy, p, now) }

  // evict_stale_sessions, in whatever order the table is walked
  ghost function EvictStale(policy: Policy, t: Table, now: nat): Table
    requires IndexOk(t)
  {
    t.(sessions := (map id | id in t.sessions && !Stale(policy, t.sessions[id], now) :: t.sessions[id]),
       index := (map e | e in t.index && !Stale(policy, t.sessions[t.index[e]], now) :: t.index[e]))
  }

  ghost function OfHost(sessions: map<nat, Peer>, host: string): set<nat> {
    set id | id in sessions && sessions[id].endpoint.host == host
  }

  // The first draw that is neither zero nor taken.
  function FirstFree(taken: set<nat>, draws: seq<nat>): (r: Option<nat>)
    ensures r.Some? ==> r.value != 0 && r.value !in taken
  {
    if draws == [] then None
    else if draws[0] != 0 && draws[0] !in taken then Some(draws[0])
    else FirstFree(taken, draws[1..])
  }

  function NextPeer(id: nat): nat { if W64(id + 1) == 0 then 1 else W64(id + 1) }

  function NewPeer(from: Endpoint, connId: nat, peerId: nat, now: nat): Peer {
    Peer(from, connId, peerId, Handshaking, now, now, 0, 1, R.EMPTY, [])
  }

  function Add(t: Table, from: Endpoint, connId: nat, now: nat): Table {
    Table(t.sessions[connId := NewPeer(from, connId, t.nextPeerId, now)], t.index[from := connId],
          NextPeer(t.nextPeerId))
  }

  datatype Verdict =
    | Malformed | Ignored | AskedToRetry | CookieExpired
    | TableFull | HostFull | Registered(connId: nat) | Unanswered | NoId

  datatype Token = Absent | Good | Bad | TooOld

  // What the server finds out about a hello before it looks at the table.
  datatype Papers = Papers(banned: bool, limited: bool, retry: Token, resumption: Token)

  // The first half of handle_client_hello: the verdict that ends it, if any.
  function Screen(policy: Policy, papers: Papers): Option<Verdict> {
    if papers.retry != Absent && papers.resumption != Absent then Some(Malformed)
    else if papers.banned || papers.limited then Some(Ignored)
    else if policy.resumption && papers.resumption == Good then None
    else if papers.retry == Good then None
    else if papers.retry == TooOld then Some(CookieExpired)
    else Some(AskedToRetry)
  }

  // A hello goes on to the table: it shows one token at most, and a good one; and nothing is held against its endpoint.
  predicate Admissible(policy: Policy, papers: Papers) {
    && !papers.banned && !papers.limited && (papers.retry == Absent || papers.resumption == Absent)
    && (papers.retry == Good || (policy.resumption && papers.resumption == Good))
  }

  // An older session from the same endpoint makes room.
  function Cleared(t: Table, from: Endpoint): Table {
    if from in t.index then Evict(t, t.index[from]) else t
  }

  // The second half of handle_client_hello, past both limits.
  function Place(t: Table, from: Endpoint, now: nat, draws: seq<nat>, answered: bool): (Table, Verdict) {
    var t2 := Cleared(t, from);
    var id := FirstFree(t2.sessions.Keys, draws);
    if id.None? then (t2, NoId)
    else if answered then (Add(t2, from, id.value, now), Registered(id.value))
    else (Evict(Add(t2, from, id.value, now), id.value), Unanswered)
  }

  // handle_client_hello once its token is good; `answered` tells whether the server hello was queued.
  ghost function Register(policy: Policy, t: Table, from: Endpoint, now: nat, draws: seq<nat>, answered: bool)
    : (Table, Verdict)
    requires IndexOk(t)
  {
    var t1 := EvictStale(policy, t, now);
    if |t1.sessions| >= policy.maxPeerSessions then (t1, TableFull)
    else if |OfHost(t1.sessions, from.host)| >= policy.maxSessionsPerIp then (t1, HostFull)
    else Place(t1, from, now, draws, answered)
  }

  // handle_client_hello
  ghost function OnHello(policy: Policy, t: Table, from: Endpoint, now: nat, papers: Papers, draws: seq<nat>,
                         answered: bool): (Table, Verdict)
    requires IndexOk(t)
  {
    var ended := Screen(policy, papers);
    if ended.Some? then (t, ended.value) else Register(policy, t, from, now, draws, answered)
  }

  ghost function Memory(sessions: map<nat, Peer>): map<nat, nat> {
    map id | id in sessions :: sessions[id].reassembly.memory
  }

  function With(t: Table, id: nat, p: Peer): Table { t.(sessions := t.sessions[id := p]) }

  // handle_fragment_payload
  ghost function TakeFragment(policy: Policy, t: Table, id: nat, now: nat, f: Fragment, deliver: R.Whole -> bool): Table
    requires id in t.sessions && R.Consistent(t.sessions[id].reassembly)
  {
    var p := t.sessions[id];
    if f.messageId !in p.reassembly.entries &&
       Sum(Memory(t.sessions)) + f.length > policy.maxTotalReassemblyMemory then t
    else With(t, id, p.(reassembly := R.AcceptFragment(policy.fragmentation, p.reassembly, now, f, deliver).0))
  }

  // -------------------------------------------------------------------- the invariant

  // The index and the table are inverse to each other, and no connection id is 0.
  ghost predicate IndexOk(t: Table) {
    && (forall id | id in t.sessions ::
          && id != 0 && t.sessions[id].connId == id
          && t.sessions[id].endpoint in t.index && t.index[t.sessions[id].endpoint] == id)
    && (forall e | e in t.index :: t.index[e] in t.sessions && t.sessions[t.index[e]].endpoint == e)
  }

  ghost predicate LimitsOk(policy: Policy, t: Table) {
    |t.sessions| <= policy.maxPeerSessions && forall host :: |OfHost(t.sessions, host)| <= policy.maxSessionsPerIp
  }

  ghost predicate PeerOk(policy: Policy, p: Peer) {
    && R.Consistent(p.reassembly) && R.WithinQuota(policy.fragmentation, p.reassembly)
    && (forall i | 0 <= i < |p.sealed| :: p.sealed[i] < p.sendSequence)
    && (forall i, j | 0 <= i < j < |p.sealed| :: p.sealed[i] < p.sealed[j])
  }

  ghost predicate PeersOk(policy: Policy, t: Table) {
    && (forall id | id in t.sessions :: PeerOk(policy, t.sessions[id]))
    && Sum(Memory(t.sessions)) <= policy.maxTotalReassemblyMemory
  }

  ghost predicate TableOk(policy: Policy, t: Table) { IndexOk(t) && LimitsOk(policy, t) && PeersOk(policy, t) }

  // ------------------------------------------------------------------ fewer sessions

  lemma EvictIndexOk(t: Table, id: nat)
    requires IndexOk(t)
    ensures IndexOk(Evict(t, id))
  {
  }

  lemma EvictStaleIndexOk(policy: Policy, t: Table, now: nat)
    requires IndexOk(t)
    ensures IndexOk(EvictStale(policy, t, now))
  {
  }

  lemma FewerLimitsOk(policy: Policy, t: Table, t': Table)
    requires LimitsOk(policy, t) && t'.sessions.Keys <= t.sessions.Keys
    requires forall id | id in t'.sessions :: t'.sessions[id] == t.sessions[id]
    ensures LimitsOk(policy, t')
  {
    R.SubsetCard(t'.sessions.Keys, t.sessions.Keys);
    assert |t'.sessions| == |t'.sessions.Keys| && |t.sessions| == |t.sessions.Keys|;
    forall host ensures |OfHost(t'.sessions, host)| <= policy.maxSessionsPerIp {
      R.SubsetCard(OfHost(t'.sessions, host), OfHost(t.sessions, host));
    }
  }

  lemma FewerPeersOk(policy: Policy, t: Table, t': Table)
    requires PeersOk(policy, t) && t'.sessions.Keys <= t.sessions.Keys
    requires forall id | id in t'.sessions :: t'.sessions[id] == t.sessions[id]
    ensures PeersOk(policy, t')
  {
    R.SumSubset(Memory(t'.sessions), Memory(t.sessions));
  }

  lemma FewerOk(policy: Policy, t: Table, t': Table)
    requires TableOk(policy, t) && IndexOk(t') && t'.sessions.Keys <= t.sessions.Keys
    requires forall id | id in t'.sessions :: t'.sessions[id] == t.sessions[id]
    ensures TableOk(policy, t')
  {
    FewerLimitsOk(policy, t, t');
    FewerPeersOk(policy, t, t');
  }

  // ------------------------------------------------------------------ one more session

  lemma AddIndexOk(t: Table, from: Endpoint, connId: nat, now: nat)
    requires IndexOk(t) && connId != 0 && connId !in t.sessions && from !in t.index
    ensures IndexOk(Add(t, from, connId, now))
  {
  }

  lemma AddLimitsOk(policy: Policy, t: Table, from: Endpoint, connId: nat, now: nat)
    requires LimitsOk(policy, t) && connId !in t.sessions
    requires |t.sessions| < policy.maxPeerSessions && |OfHost(t.sessions, from.host)| < policy.maxSessionsPerIp
    ensures LimitsOk(policy, Add(t, from, connId, now))
  {
    var t' := Add(t, from, connId, now);
    forall host ensures |OfHost(t'.sessions, host)| <= policy.maxSessionsPerIp {
      OfHostWith(t.sessions, connId, t'.sessions[connId], host);
    }
  }

  lemma OfHostWith(sessions: map<nat, Peer>, id: nat, p: Peer, host: string)
    requires id !in sessions
    ensures OfHost(sessions[id := p], host) == OfHost(sessions, host) + if p.endpoint.host == host then {id} else {}
  {
  }

  lemma MemoryWith(sessions: map<nat, Peer>, id: nat, p: Peer)
    ensures Memory(sessions[id := p]) == Memory(sessions)[id := p.reassembly.memory]
  {
  }

  lemma NewPeerOk(policy: Policy, p: Peer)
    requires p.reassembly == R.EMPTY && p.sealed == []
    ensures PeerOk(policy, p)
  {
    assert R.Lengths(map[]) == map[];
  }

  lemma AddPeersOk(policy: Policy, t: Table, connId: nat, p: Peer, t': Table)
    requires PeersOk(policy, t) && connId !in t.sessions && PeerOk(policy, p) && p.reassembly.memory == 0
    requires t'.sessions == t.sessions[connId := p]
    ensures PeersOk(policy, t')
  {
    SumInsert(Memory(t.sessions), connId, 0);
    MemoryWith(t.sessions, connId, p);
  }

  lemma AddOk(policy: Policy, t: Table, from: Endpoint, connId: nat, now: nat)
    requires TableOk(policy, t) && connId != 0 && connId !in t.sessions && from !in t.index
    requires |t.sessions| < policy.maxPeerSessions && |OfHost(t.sessions, from.host)| < policy.maxSessionsPerIp
    ensures TableOk(policy, Add(t, from, connId, now))
  {
    AddIndexOk(t, from, connId, now);
    AddLimitsOk(policy, t, from, connId, now);
    NewPeerOk(policy, NewPeer(from, connId, t.nextPeerId, now));
    AddPeersOk(policy, t, connId, NewPeer(from, connId, t.nextPeerId, now), Add(t, from, connId, now));
  }

  lemma EvictOk(policy: Policy, t: Table, id: nat)
    requires TableOk(policy, t)
    ensures TableOk(policy, Evict(t, id))
  {
    EvictIndexOk(t, id);
    FewerOk(policy, t, Evict(t, id));
  }

  lemma ClearedOk(policy: Policy, t: Table, from: Endpoint)
    requires TableOk(policy, t)
    ensures var t' := Cleared(t, from);
      && TableOk(policy, t') && from !in t'.index && |t'.sessions| <= |t.sessions|
      && |OfHost(t'.sessions, from.host)| <= |OfHost(t.sessions, from.host)|
  {
    var t' := Cleared(t, from);
    if from in t.index { EvictIndexOk(t, t.index[from]); }
    FewerOk(policy, t, t');
    R.SubsetCard(t'.sessions.Keys, t.sessions.Keys);
    assert |t'.sessions| == |t'.sessions.Keys| && |t.sessions| == |t.sessions.Keys|;
    R.SubsetCard(OfHost(t'.sessions, from.host), OfHost(t.sessions, from.host));
  }

  lemma PlaceOk(policy: Policy, t: Table, from: Endpoint, now: nat, draws: seq<nat>, answered: bool)
    requires TableOk(policy, t)
    requires |t.sessions| < policy.maxPeerSessions && |OfHost(t.sessions, from.host)| < policy.maxSessionsPerIp
    ensures TableOk(policy, Place(t, from, now, draws, answered).0)
  {
    var t2 := Cleared(t, from);
    ClearedOk(policy, t, from);
    var id := FirstFree(t2.sessions.Keys, draws);
    if id.Some? {
      AddOk(policy, t2, from, id.value, now);
      EvictOk(policy, Add(t2, from, id.value, now), id.value);
    }
  }

  lemma RegisterOk(policy: Policy, t: Table, from: Endpoint, now: nat, draws: seq<nat>, answered: bool)
    requires TableOk(policy, t)
    ensures TableOk(policy, Register(policy, t, from, now, draws, answered).0)
  {
    var t1 := EvictStale(policy, t, now);
    EvictStaleIndexOk(policy, t, now);
    FewerOk(policy, t, t1);
    if |t1.sessions| < policy.maxPeerSessions && |OfHost(t1.sessions, from.host)| < policy.maxSessionsPerIp {
      PlaceOk(policy, t1, from, now, draws, answered);
    }
  }

  // ---------------------------------------------------- a second hello from an endpoint

  // One of the two limits turns the hello away.
  ghost predicate Crowded(policy: Policy, t: Table, host: string) {
    |t.sessions| >= policy.maxPeerSessions || |OfHost(t.sessions, host)| >= policy.maxSessionsPerIp
  }

  ghost predicate Lives(t: Table, id: nat) { id in t.sessions && t.sessions[id].phase == Established }

  lemma PlaceReplaces(t: Table, from: Endpoint, now: nat, draws: seq<nat>, answered: bool)
    requires IndexOk(t) && from in t.index
    ensures !Lives(Place(t, from, now, draws, answered).0, t.index[from])
  {
  }

  // An established session is replaced by a further hello from its endpoint, a second copy of the one it was made from
  // included, unless that hello is not admissible or a limit turns it away.
  lemma HelloSparesIff(policy: Policy, t: Table, from: Endpoint, now: nat, papers: Papers, draws: seq<nat>,
                       answered: bool)
    requires IndexOk(t) && from in t.index && Lives(t, t.index[from])
    ensures Lives(OnHello(policy, t, from, now, papers, draws, answered).0, t.index[from]) <==>
      !Admissible(policy, papers) || Crowded(policy, EvictStale(policy, t, now), from.host)
  {
    var t1 := EvictStale(policy, t, now);
    EvictStaleIndexOk(policy, t, now);
    if !Crowded(policy, t1, from.host) { PlaceReplaces(t1, from, now, draws, answered); }
  }

  // ------------------------------------------------------------------ a session changes

  lemma WithLimitsOk(policy: Policy, t: Table, id: nat, p: Peer)
    requires LimitsOk(policy, t) && id in t.sessions && p.endpoint == t.sessions[id].endpoint
    ensures LimitsOk(policy, With(t, id, p))
  {
    var t' := With(t, id, p);
    forall host ensures |OfHost(t'.sessions, host)| <= policy.maxSessionsPerIp {
      assert OfHost(t'.sessions, host) == OfHost(t.sessions, host);
    }
  }

  lemma WithPeersOk(policy: Policy, t: Table, id: nat, p: Peer, t': Table)
    requires PeersOk(policy, t) && id in t.sessions && PeerOk(policy, p) && t' == With(t, id, p)
    requires Sum(Memory(t.sessions)) - t.sessions[id].reassembly.memory + p.reassembly.memory
          <= policy.maxTotalReassemblyMemory
    ensures PeersOk(policy, t')
  {
    MemoryWith(t.sessions, id, p);
    SumReplace(Memory(t.sessions), id, p.reassembly.memory);
  }

  lemma WithOk(policy: Policy, t: Table, id: nat, p: Peer)
    requires TableOk(policy, t) && id in t.sessions && PeerOk(policy, p)
    requires p.endpoint == t.sessions[id].endpoint && p.connId == id
    requires Sum(Memory(t.sessions)) - t.sessions[id].reassembly.memory + p.reassembly.memory
          <= policy.maxTotalReassemblyMemory
    ensures TableOk(policy, With(t, id, p))
  {
    WithLimitsOk(policy, t, id, p);
    WithPeersOk(policy, t, id, p, With(t, id, p));
  }

  // The reassemblers together never pass the server's limit.
  lemma TakeFragmentOk(policy: Policy, t: Table, id: nat, now: nat, f: Fragment, deliver: R.Whole -> bool)
    requires TableOk(policy, t) && id in t.sessions
    ensures TableOk(policy, TakeFragment(policy, t, id, now, f, deliver))
  {
    var p := t.sessions[id];
    R.AcceptKeepsQuota(policy.fragmentation, p.reassembly, now, f, deliver);
    if f.messageId in p.reassembly.entries || Sum(Memory(t.sessions)) + f.length <= policy.maxTotalReassemblyMemory {
      WithOk(policy, t, id, p.(reassembly := R.AcceptFragment(policy.fragmentation, p.reassembly, now, f, deliver).0));
    }
  }

  // What a step may do to a session that stays: keep its place, never add memory, move forward.
  ghost predicate Forward(policy: Policy, p: Peer, p': Peer) {
    && PeerOk(policy, p') && p'.endpoint == p.endpoint && p'.connId == p.connId && p'.peerId == p.peerId
    && p'.reassembly.memory <= p.reassembly.memory
    && p'.phase.Rank() >= p.phase.Rank()
    && (p'.phase == Established ==> p.phase == Handshaking || p.phase == Established)
  }

  lemma CloseForward(policy: Policy, p: Peer, sendClose: bool)
    requires PeerOk(policy, p)
    ensures Forward(policy, p, ClosePeer(p, sendClose))
  {
  }

  lemma HearForward(policy: Policy, p: Peer, now: nat)
    requires PeerOk(policy, p)
    ensures Forward(policy, p, HearPeer(p, now)) && Forward(policy, p, HearClose(p, now))
  {
    CloseForward(policy, HearPeer(p, now), true);
  }

  lemma TendForward(policy: Policy, p: Peer, now: nat)
    requires PeerOk(policy, p)
    ensures Forward(policy, p, TendPeer(policy, p, now))
  {
    R.ExpiryKeepsQuota(policy.fragmentation, p.reassembly, now);
    var p1 := p.(reassembly := R.Unexpired(policy.fragmentation, p.reassembly, now));
    assert Forward(policy, p, p1);
    CloseForward(policy, p1, true);
  }

  lemma SealForward(policy: Policy, p: Peer)
    requires PeerOk(policy, p)
    ensures Forward(policy, p, SealOne(p))
  {
  }

  // ------------------------------------------------------------------------------ runs

  datatype Step =
    | Hello(from: Endpoint, now: nat, papers: Papers, draws: seq<nat>, answered: bool)
    | Piece(id: nat, now: nat, fragment: Fragment, deliver: R.Whole -> bool)
    | Packet(id: nat, now: nat)                // any packet that decrypts
    | RemoteClose(id: nat, now: nat)
    | Close(id: nat, sendClose: bool)          // close_session, whatever the reason
    | Seal(id: nat)                            // messages, acks, raw payloads and keepalives
    | Sent(id: nat, now: nat)                  // flush_pending sent a packet of the session
    | Tend(id: nat, now: nat)                  // one session's turn in run_housekeeping
    | Sweep(now: nat)                          // evict_stale_sessions
    | Stop

  // Steps on a session the table does not hold do nothing.
  ghost function Apply(policy: Policy, t: Table, step: Step): Table
    requires TableOk(policy, t)
  {
    match step
    case Hello(from, now, papers, draws, answered) => OnHello(policy, t, from, now, papers, draws, answered).0
    case Sweep(now) => EvictStale(policy, t, now)
    case Stop => t.(sessions := map[], index := map[])
    case Piece(id, now, f, deliver) => if id in t.sessions then TakeFragment(policy, t, id, now, f, deliver) else t
    case _ => if step.id in t.sessions then With(t, step.id, Change(policy, t.sessions[step.id], step)) else t
  }

  ghost predicate OnOne(step: Step) { !step.Hello? && !step.Sweep? && !step.Stop? && !step.Piece? }

  ghost function Change(policy: Policy, p: Peer, step: Step): Peer
    requires OnOne(step)
  {
    match step
    case Packet(_, now) => HearPeer(p, now)
    case RemoteClose(_, now) => HearClose(p, now)
    case Close(_, sendClose) => ClosePeer(p, sendClose)
    case Seal(_) => SealOne(p)
    case Sent(_, now) => p.(lastSendMs := now)
    case Tend(_, now) => TendPeer(policy, p, now)
  }

  lemma ChangeForward(policy: Policy, p: Peer, step: Step)
    requires PeerOk(policy, p) && OnOne(step)
    ensures Forward(policy, p, Change(policy, p, step))
  {
    match step
    case Packet(_, now) => HearForward(policy, p, now);
    case RemoteClose(_, now) => HearForward(policy, p, now);
    case Close(_, sendClose) => CloseForward(policy, p, sendClose);
    case Seal(_) => SealForward(policy, p);
    case Sent(_, now) =>
    case Tend(_, now) => TendForward(policy, p, now);
  }

  lemma ForwardOk(policy: Policy, t: Table, id: nat, p: Peer)
    requires TableOk(policy, t) && id in t.sessions && Forward(policy, t.sessions[id], p)
    ensures TableOk(policy, With(t, id, p))
  {
    WithOk(policy, t, id, p);
  }

  lemma ChangeOk(policy: Policy, t: Table, step: Step)
    requires TableOk(policy, t) && OnOne(step) && step.id in t.sessions
    ensures TableOk(policy, With(t, step.id, Change(policy, t.sessions[step.id], step)))
  {
    ChangeForward(policy, t.sessions[step.id], step);
    ForwardOk(policy, t, step.id, Change(policy, t.sessions[step.id], step));
  }

  lemma SweepOk(policy: Policy, t: Table, now: nat)
    requires TableOk(policy, t)
    ensures TableOk(policy, EvictStale(policy, t, now))
  {
    EvictStaleIndexOk(policy, t, now);
    FewerOk(policy, t, EvictStale(policy, t, now));
  }

  lemma StopOk(policy: Policy, t: Table)
    requires TableOk(policy, t)
    ensures TableOk(policy, t.(sessions := map[], index := map[]))
  {
    FewerOk(policy, t, t.(sessions := map[], index := map[]));
  }

  lemma StepOk(policy: Policy, t: Table, step: Step, t': Table)
    requires TableOk(policy, t) && t' == Apply(policy, t, step)
    ensures TableOk(policy, t')
  {
    if step.Hello? {
      RegisterOk(policy, t, step.from, step.now, step.draws, step.answered);
    } else if step.Sweep? {
      SweepOk(policy, t, step.now);
    } else if step.Stop? {
      StopOk(policy, t);
    } else if step.Piece? {
      if step.id in t.sessions { TakeFragmentOk(policy, t, step.id, step.now, step.fragment, step.deliver); }
    } else if step.id in t.sessions {
      ChangeOk(policy, t, step);
    }
  }

  ghost predicate IsRun(policy: Policy, states: seq<Table>, steps: seq<Step>) {
    && |states| == |steps| + 1 && states[0] == NO_SESSIONS
    && forall n | 0 <= n < |steps| :: Next(policy, states[n], steps[n], states[n + 1])
  }

  // What the operations need holds in every reachable state (RunIsOk).
  ghost predicate Next(policy: Policy, t: Table, step: Step, t': Table) {
    TableOk(policy, t) ==> t' == Apply(policy, t, step)
  }

  // In every reachable state the index mirrors the table, both limits hold, every reassembler is within
  // its quota and all of them together within the server's.
  lemma {:induction false} RunIsOk(policy: Policy, states: seq<Table>, steps: seq<Step>)
    requires IsRun(policy, states, steps)
    ensures TableOk(policy, states[|steps|])
    decreases |steps|
  {
    var n := |steps|;
    if n == 0 {
      assert Memory(map[]) == map[];
      forall host ensures OfHost(map[], host) == {} {}
    } else {
      RunIsOk(policy, states[..n], steps[..n - 1]);
      StepOk(policy, states[n - 1], steps[n - 1], states[n]);
    }
  }

  // ------------------------------------------------------- sessions only move forward

  ghost predicate Numbered(t: Table) { forall id | id in t.sessions :: t.sessions[id].peerId < t.nextPeerId }

  ghost predicate Onward(p: Peer, p': Peer) {
    && p'.peerId == p.peerId && p'.phase.Rank() >= p.phase.Rank()
    && (p'.phase == Established ==> p.phase == Handshaking || p.phase == Established)
  }

  // Sessions with an older number were there before and moved forward; new ones start at Handshaking.
  ghost predicate AllOnward(t: Table, t': Table) {
    && t.nextPeerId <= t'.nextPeerId && Numbered(t')
    && (forall id | id in t'.sessions && t'.sessions[id].peerId < t.nextPeerId ::
          id in t.sessions && Onward(t.sessions[id], t'.sessions[id]))
    && (forall id | id in t'.sessions && t'.sessions[id].peerId >= t.nextPeerId :: t'.sessions[id].phase == Handshaking)
  }

  lemma FewerOnward(t: Table, t': Table)
    requires Numbered(t) && t'.nextPeerId == t.nextPeerId
    requires forall id | id in t'.sessions :: id in t.sessions && t'.sessions[id] == t.sessions[id]
    ensures AllOnward(t, t')
  {
  }

  lemma AddOnward(t: Table, t2: Table, from: Endpoint, connId: nat, now: nat)
    requires AllOnward(t, t2) && t2.nextPeerId == t.nextPeerId && t.nextPeerId + 1 < U64_LIMIT
    ensures AllOnward(t, Add(t2, from, connId, now)) && AllOnward(t, Evict(Add(t2, from, connId, now), connId))
  {
  }

  lemma PlaceOnward(t: Table, t1: Table, from: Endpoint, now: nat, draws: seq<nat>, answered: bool)
    requires AllOnward(t, t1) && t1.nextPeerId == t.nextPeerId && t.nextPeerId + 1 < U64_LIMIT
    ensures AllOnward(t, Place(t1, from, now, draws, answered).0)
  {
    var t2 := Cleared(t1, from);
    var id := FirstFree(t2.sessions.Keys, draws);
    if id.Some? { AddOnward(t, t2, from, id.value, now); }
  }

  lemma HelloOnward(policy: Policy, t: Table, from: Endpoint, now: nat, draws: seq<nat>, answered: bool)
    requires IndexOk(t) && Numbered(t) && t.nextPeerId + 1 < U64_LIMIT
    ensures AllOnward(t, Register(policy, t, from, now, draws, answered).0)
  {
    FewerOnward(t, EvictStale(policy, t, now));
    PlaceOnward(t, EvictStale(policy, t, now), from, now, draws, answered);
  }

  lemma WithOnward(t: Table, id: nat, p: Peer)
    requires Numbered(t) && id in t.sessions && Onward(t.sessions[id], p)
    ensures AllOnward(t, With(t, id, p))
  {
  }

  lemma PieceOnward(policy: Policy, t: Table, id: nat, now: nat, f: Fragment, deliver: R.Whole -> bool)
    requires Numbered(t) && id in t.sessions && R.Consistent(t.sessions[id].reassembly)
    ensures AllOnward(t, TakeFragment(policy, t, id, now, f, deliver))
  {
    var p := t.sessions[id];
    WithOnward(t, id, p.(reassembly := R.AcceptFragment(policy.fragmentation, p.reassembly, now, f, deliver).0));
  }

  lemma ChangeOnward(policy: Policy, t: Table, step: Step)
    requires Numbered(t) && OnOne(step) && step.id in t.sessions && PeerOk(policy, t.sessions[step.id])
    ensures AllOnward(t, With(t, step.id, Change(policy, t.sessions[step.id], step)))
  {
    ChangeForward(policy, t.sessions[step.id], step);
    WithOnward(t, step.id, Change(policy, t.sessions[step.id], step));
  }

  lemma TableOnward(policy: Policy, t: Table, step: Step, t': Table)
    requires TableOk(policy, t) && Numbered(t) && t.nextPeerId + 1 < U64_LIMIT && t' == Apply(policy, t, step)
    requires step.Hello? || step.Sweep? || step.Stop?
    ensures AllOnward(t, t')
  {
    if step.Hello? {
      HelloOnward(policy, t, step.from, step.now, step.draws, step.answered);
    } else {
      FewerOnward(t, t');
    }
  }

  lemma PeerOnward(policy: Policy, t: Table, step: Step, t': Table)
    requires TableOk(policy, t) && Numbered(t) && t' == Apply(policy, t, step) && (step.Piece? || OnOne(step))
    ensures AllOnward(t, t')
  {
    if step.id !in t.sessions {
      FewerOnward(t, t');
    } else if step.Piece? {
      PieceOnward(policy, t, step.id, step.now, step.fragment, step.deliver);
    } else {
      ChangeOnward(policy, t, step);
    }
  }

  // A history of tables in which every step moves sessions onward.
  ghost predicate OnwardAll(states: seq<Table>) {
    forall n | 0 <= n < |states| - 1 :: AllOnward(states[n], states[n + 1])
  }

  lemma {:induction false} RunOnward(policy: Policy, states: seq<Table>, steps: seq<Step>)
    requires IsRun(policy, states, steps)
    requires forall k | 0 <= k < |states| :: states[k].nextPeerId + 1 < U64_LIMIT
    ensures OnwardAll(states) && Numbered(states[|steps|])
    decreases |steps|
  {
    var n := |steps|;
    if n > 0 {
      RunOnward(policy, states[..n], steps[..n - 1]);
      RunIsOk(policy, states[..n], steps[..n - 1]);
      if steps[n - 1].Piece? || OnOne(steps[n - 1]) {
        PeerOnward(policy, states[n - 1], steps[n - 1], states[n]);
      } else {
        TableOnward(policy, states[n - 1], steps[n - 1], states[n]);
      }
      assert AllOnward(states[n - 1], states[n]);
      forall k | 0 <= k < n ensures AllOnward(states[k], states[k + 1]) {
        if k < n - 1 { assert AllOnward(states[..n][k], states[..n][k + 1]); }
      }
    }
  }

  lemma {:induction false} PeerIdsGrow(states: seq<Table>, first: nat, last: nat)
    requires OnwardAll(states) && first <= last < |states|
    ensures states[first].nextPeerId <= states[last].nextPeerId
    decreases last
  {
    if first < last {
      PeerIdsGrow(states, first, last - 1);
      assert AllOnward(states[last - 1], states[last - 1 + 1]);
    }
  }

  lemma {:induction false} OldSessions(states: seq<Table>, first: nat, last: nat, id: nat)
    requires OnwardAll(states) && first <= last < |states|
    requires id in states[last].sessions && states[last].sessions[id].peerId < states[first].nextPeerId
    ensures id in states[first].sessions && states[first].sessions[id].peerId == states[last].sessions[id].peerId
    ensures states[first].sessions[id].phase.Rank() <= states[last].sessions[id].phase.Rank()
    decreases last
  {
    if first < last {
      PeerIdsGrow(states, first, last - 1);
      assert AllOnward(states[last - 1], states[last - 1 + 1]);
      OldSessions(states, first, last - 1, id);
    }
  }

  // Over a whole run a session never moves back, and an evicted one never returns.
  lemma RunGoesForward(policy: Policy, states: seq<Table>, steps: seq<Step>, first: nat, last: nat, id: nat)
    requires IsRun(policy, states, steps) && first <= last <= |steps|
    requires forall n | 0 <= n < |states| :: states[n].nextPeerId + 1 < U64_LIMIT
    requires id in states[last].sessions && states[last].sessions[id].peerId < states[first].nextPeerId
    ensures id in states[first].sessions && states[first].sessions[id].peerId == states[last].sessions[id].peerId
    ensures states[first].sessions[id].phase.Rank() <= states[last].sessions[id].phase.Rank()
  {
    RunOnward(policy, states, steps);
    OldSessions(states, first, last, id);
  }

  // No two packets ever encrypted for the same session have the same nonce.
  lemma NoncesNeverRepeat(policy: Policy, states: seq<Table>, steps: seq<Step>, id: nat, i: nat, j: nat)
    requires IsRun(policy, states, steps) && id in states[|steps|].sessions && id < U64_LIMIT
    requires var p := states[|steps|].sessions[id]; i < j < |p.sealed| && p.sendSequence <= U64_LIMIT
    ensures var p := states[|steps|].sessions[id]; NonceOf(p.connId, p.sealed[i]) != NonceOf(p.connId, p.sealed[j])
  {
    RunIsOk(policy, states, steps);
    var p := states[|steps|].sessions[id];
    assert PeerOk(policy, p);
    if NonceOf(p.connId, p.sealed[i]) == NonceOf(p.connId, p.sealed[j]) {
      NonceInjective(p.connId, p.sealed[i], p.connId, p.sealed[j]);
    }
  }

  // ----------------------------------------------------- a session its own hello replaces

  function Alone(p: Peer): Table { Table(map[p.connId := p], map[p.endpoint := p.connId], 2) }

  lemma FirstHello(policy: Policy, from: Endpoint, now: nat, papers: Papers)
    requires Admissible(policy, papers) && policy.maxPeerSessions > 0 && policy.maxSessionsPerIp > 0
    ensures OnHello(policy, NO_SESSIONS, from, now, papers, [1], true).0 == Alone(NewPeer(from, 1, 1, now))
  {
    var t := NO_SESSIONS;
    assert EvictStale(policy, t, now) == t && OfHost(t.sessions, from.host) == {};
    assert FirstFree(t.sessions.Keys, [1]) == Some(1);
  }

  lemma AloneIsNotCrowded(policy: Policy, p: Peer, now: nat, host: string)
    requires p.connId != 0 && p.phase == Established && policy.maxPeerSessions > 1 && policy.maxSessionsPerIp > 1
    ensures IndexOk(Alone(p)) && !Crowded(policy, EvictStale(policy, Alone(p), now), host)
  {
    var t := Alone(p);
    assert EvictStale(policy, t, now) == t;
    assert |t.sessions| == 1;
    R.SubsetCard(OfHost(t.sessions, host), {p.connId});
  }

  lemma FirstHelloStep(policy: Policy, from: Endpoint, now: nat, papers: Papers)
    requires Admissible(policy, papers) && policy.maxPeerSessions > 0 && policy.maxSessionsPerIp > 0
    ensures Next(policy, NO_SESSIONS, Hello(from, now, papers, [1], true), Alone(NewPeer(from, 1, 1, now)))
  {
    FirstHello(policy, from, now, papers);
  }

  lemma FirstPacketStep(policy: Policy, p: Peer, now: nat)
    requires p.connId == 1
    ensures Next(policy, Alone(p), Packet(1, now), Alone(HearPeer(p, now)))
  {
    assert With(Alone(p), 1, HearPeer(p, now)) == Alone(HearPeer(p, now));
  }

  lemma SecondHelloStep(policy: Policy, p: Peer, from: Endpoint, now: nat, papers: Papers) returns (t: Table)
    requires p.connId == 1 && p.endpoint == from && p.phase == Established && Admissible(policy, papers)
    requires policy.maxPeerSessions > 1 && policy.maxSessionsPerIp > 1
    ensures Next(policy, Alone(p), Hello(from, now, papers, [2], true), t) && !Lives(t, 1)
  {
    AloneIsNotCrowded(policy, p, now, from.host);
    HelloSparesIff(policy, Alone(p), from, now, papers, [2], true);
    t := OnHello(policy, Alone(p), from, now, papers, [2], true).0;
  }

  lemma ThreeSteps(policy: Policy, t1: Table, t2: Table, t3: Table, a: Step, b: Step, c: Step)
    requires Next(policy, NO_SESSIONS, a, t1) && Next(policy, t1, b, t2) && Next(policy, t2, c, t3)
    ensures IsRun(policy, [NO_SESSIONS, t1, t2, t3], [a, b, c])
  {
    var states, steps := [NO_SESSIONS, t1, t2, t3], [a, b, c];
    forall n | 0 <= n < |steps| ensures Next(policy, states[n], steps[n], states[n + 1]) {
      assert n == 0 || n == 1 || n == 2;
    }
  }

  // A run: a hello makes session 1, the client's first packet establishes it, and a second copy of the hello replaces
  // it.
  lemma SecondCopyReplaces(policy: Policy, from: Endpoint, now: nat, papers: Papers)
    returns (states: seq<Table>, steps: seq<Step>)
    requires Admissible(policy, papers) && policy.maxPeerSessions > 1 && policy.maxSessionsPerIp > 1
    ensures IsRun(policy, states, steps)
    ensures steps == [Hello(from, now, papers, [1], true), Packet(1, now), Hello(from, now, papers, [2], true)]
    ensures Lives(states[2], 1) && !Lives(states[3], 1)
  {
    var p := NewPeer(from, 1, 1, now);
    FirstHelloStep(policy, from, now, papers);
    FirstPacketStep(policy, p, now);
    var t := SecondHelloStep(policy, HearPeer(p, now), from, now, papers);
    states := [NO_SESSIONS, Alone(p), Alone(HearPeer(p, now)), t];
    steps := [Hello(from, now, papers, [1], true), Packet(1, now), Hello(from, now, papers, [2], true)];
    ThreeSteps(policy, states[1], states[2], t, steps[0], steps[1], steps[2]);
  }

  // ----------------------------------------------------------------------------- class

  // The table without the sessions in `gone`.
  ghost function Without(t: Table, gone: set<nat>): Table
    requires IndexOk(t)
  {
    t.(sessions := t.sessions - gone, index := (map e | e in t.index && t.index[e] !in gone :: t.index[e]))
  }

  lemma CloseKeeps(policy: Policy, t: Table, id: nat, sendClose: bool)
    requires id in t.sessions
    ensures TableOk(policy, t) ==>
      var p := ClosePeer(t.sessions[id], sendClose);
      TableOk(policy, With(t, id, p)) && Forward(policy, t.sessions[id], p)
  {
    if TableOk(policy, t) {
      ChangeOk(policy, t, Close(id, sendClose));
      CloseForward(policy, t.sessions[id], sendClose);
    }
  }

  lemma WithoutOneMore(t: Table, gone: set<nat>, id: nat)
    requires IndexOk(t) && id in t.sessions && id !in gone
    ensures Evict(Without(t, gone), id) == Without(t, gone + {id})
  {
    assert Evict(Without(t, gone), id).index == Without(t, gone + {id}).index;
    assert Evict(Without(t, gone), id).sessions == Without(t, gone + {id}).sessions;
  }

  lemma WithoutStale(policy: Policy, t: Table, gone: set<nat>, now: nat)
    requires IndexOk(t)
    requires forall id :: id in gone <==> id in t.sessions && Stale(policy, t.sessions[id], now)
    ensures Without(t, gone) == EvictStale(policy, t, now)
  {
    assert Without(t, gone).index == EvictStale(policy, t, now).index;
    assert Without(t, gone).sessions == EvictStale(policy, t, now).sessions;
  }

  class SessionServer {
    const policy: Policy
    var sessions: map<nat, Peer>
    var endpointToConn: map<Endpoint, nat>
    var nextPeerId: nat

    ghost function Value(): Table reads this { Table(sessions, endpointToConn, nextPeerId) }

    constructor (policy: Policy)
      ensures Value() == NO_SESSIONS && this.policy == policy
    {
      this.policy := policy;
      sessions, endpointToConn, nextPeerId := map[], map[], 1;
    }

    method EvictSession(id: nat)
      modifies `sessions, `endpointToConn
      ensures Value() == Evict(old(Value()), id)
    {
      if id !in sessions { return; }
      endpointToConn := endpointToConn - {sessions[id].endpoint};
      sessions := sessions - {id};
    }

    method FindStale(now: nat) returns (doomed: seq<nat>)
      ensures forall i, j | 0 <= i < j < |doomed| :: doomed[i] != doomed[j]
      ensures forall id :: id in doomed <==> id in sessions && Stale(policy, sessions[id], now)
    {
      doomed := [];
      var todo := sessions.Keys;
      while todo != {}
        invariant todo <= sessions.Keys
        invariant forall i, j | 0 <= i < j < |doomed| :: doomed[i] != doomed[j]
        invariant forall id :: id in doomed <==> id in sessions && id !in todo && Stale(policy, sessions[id], now)
        decreases |todo|
      {
        var id :| id in todo;
        todo := todo - {id};
        if Stale(policy, sessions[id], now) { doomed := doomed + [id]; }
      }
    }

    method EvictStaleSessions(now: nat)
      requires IndexOk(Value())
      modifies `sessions, `endpointToConn
      ensures Value() == EvictStale(policy, old(Value()), now)
    {
      ghost var before := Value();
      var doomed := FindStale(now);
      ghost var gone: set<nat> := {};
      assert Value() == Without(before, {});
      for i := 0 to |doomed|
        invariant gone == set k | k in doomed[..i]
        invariant Value() == Without(before, gone)
      {
        WithoutOneMore(before, gone, doomed[i]);
        EvictSession(doomed[i]);
        gone := gone + {doomed[i]};
      }
      assert doomed[..|doomed|] == doomed;
      WithoutStale(policy, before, gone, now);
    }

    method CountForHost(host: string) returns (n: nat)
      ensures n == |OfHost(sessions, host)|
    {
      n := 0;
      var todo := sessions.Keys;
      ghost var counted: set<nat> := {};
      while todo != {}
        invariant todo <= sessions.Keys && n == |counted|
        invariant counted == set id | id in sessions && id !in todo && sessions[id].endpoint.host == host
        decreases |todo|
      {
        var id :| id in todo;
        todo := todo - {id};
        if sessions[id].endpoint.host == host {
          counted := counted + {id};
          n := n + 1;
        }
      }
      assert counted == OfHost(sessions, host);
    }

    method TotalReassemblyMemory() returns (total: nat)
      ensures total == Sum(Memory(sessions))
    {
      total := 0;
      var todo := sessions.Keys;
      ghost var m := Memory(sessions);
      ghost var seen: set<nat> := {};
      assert m - {} == m;
      while todo != {}
        invariant todo <= sessions.Keys && (forall id | id in sessions :: id in todo <==> id !in seen)
        invariant total + Sum(m - seen) == Sum(m)
        decreases |todo|
      {
        var id :| id in todo;
        SumOneMore(m, seen, id);
        total := total + sessions[id].reassembly.memory;
        todo := todo - {id};
        seen := seen + {id};
      }
      assert m - seen == map[];
    }

    // `draws` are the random values in the order they come.
    method AllocateConnId(draws: seq<nat>) returns (r: Option<nat>)
      ensures r == FirstFree(sessions.Keys, draws)
    {
      var i := 0;
      assert draws[0..] == draws;
      while i < |draws|
        invariant i <= |draws| && FirstFree(sessions.Keys, draws[i..]) == FirstFree(sessions.Keys, draws)
      {
        var candidate := draws[i];
        if candidate != 0 && candidate !in sessions { return Some(candidate); }
        assert draws[i..][1..] == draws[i + 1..];
        i := i + 1;
      }
      return None;
    }

    method HandleClientHello(from: Endpoint, now: nat, papers: Papers, draws: seq<nat>, answered: bool)
      returns (verdict: Verdict)
      requires IndexOk(Value())
      modifies this
      ensures (Value(), verdict) == OnHello(policy, old(Value()), from, now, papers, draws, answered)
    {
      if papers.retry != Absent && papers.resumption != Absent { return Malformed; }
      if papers.banned || papers.limited { return Ignored; }
      if !(policy.resumption && papers.resumption == Good) {
        if papers.retry == Absent { return AskedToRetry; }
        if papers.retry == TooOld { return CookieExpired; }
        if papers.retry == Bad { return AskedToRetry; }
      }
      EvictStaleSessions(now);
      if |sessions| >= policy.maxPeerSessions { return TableFull; }
      var count := CountForHost(from.host);
      if count >= policy.maxSessionsPerIp { return HostFull; }
      if from in endpointToConn { EvictSession(endpointToConn[from]); }
      var id := AllocateConnId(draws);
      if id.None? { return NoId; }
      var session := NewPeer(from, id.value, nextPeerId, now);
      nextPeerId := NextPeer(nextPeerId);
      endpointToConn := endpointToConn[from := id.value];
      sessions := sessions[id.value := session];
      if !answered {
        EvictSession(id.value);
        return Unanswered;
      }
      return Registered(id.value);
    }

    method HandleFragment(id: nat, now: nat, f: Fragment, deliver: R.Whole -> bool)
      requires id in sessions && R.Consistent(sessions[id].reassembly)
      modifies `sessions
      ensures Value() == TakeFragment(policy, old(Value()), id, now, f, deliver)
    {
      var p := sessions[id];
      if f.messageId !in p.reassembly.entries {
        var total := TotalReassemblyMemory();
        if total + f.length > policy.maxTotalReassemblyMemory { return; }
      }
      var (st, _) := R.AcceptFragment(policy.fragmentation, p.reassembly, now, f, deliver);
      sessions := sessions[id := p.(reassembly := st)];
    }

    method CloseSession(id: nat, sendClose: bool)
      requires id in sessions
      modifies `sessions
      ensures Value() == With(old(Value()), id, ClosePeer(old(sessions)[id], sendClose))
      ensures old(TableOk(policy, Value())) ==>
        TableOk(policy, Value()) && Forward(policy, old(sessions)[id], sessions[id])
    {
      CloseKeeps(policy, Value(), id, sendClose);
      var p := sessions[id];
      if sendClose && p.phase != Closed {
        if p.phase == Established || p.phase == Closing {
          p := p.(sendSequence := p.sendSequence + 1, sealed := p.sealed + [p.sendSequence]);
        }
        p := p.(phase := Closing);
      } else {
        p := p.(phase := Closed);
      }
      sessions := sessions[id := p];
    }
  }
}
