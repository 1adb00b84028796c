// The client's connection: its phases, its keys, its queue of built packets and its packet numbers.
module Connection {
  import opened Config
  import opened Codec
  import opened Nonces
  import P = Pacing

  const KIND_RAW: byte := 0
  const KIND_HANDSHAKE: byte := 1
  const KIND_MESSAGE: byte := 2
  const KIND_KEEPALIVE: byte := 3
  const KIND_CLOSE: byte := 4

  datatype Settings = Settings(
    handshakeTimeoutMs: nat, idleTimeoutMs: nat, keepaliveIntervalMs: nat, closeDrainMs: nat, maxPendingPackets: nat)

  // A packet encrypted under the present keys.
  datatype Sealed = Sealed(connId: nat, sequence: nat)

  datatype Conn = Conn(
    phase: Phase, connId: nat, keyed: bool, sequence: nat,
    startedMs: nat, lastRecvMs: nat, lastSendMs: nat,
    pending: seq<P.Packet>, pendingBytes: nat,
    // history: every packet encrypted under the present keys
    sealed: seq<Sealed>)

  const RESET := Conn(Idle, 0, false, 1, 0, 0, 0, [], 0, [])

  // ------------------------------------------------------------------- operations

  // Payload and, for an encrypted packet, the ciphertext with its 16-byte tag.
  datatype Load = Load(payload: seq<byte>, cipher: seq<byte>) {
    predicate Fits() { |cipher| == |payload| + AEAD_TAG_BYTES }
  }

  function EnqueuePacket(cfg: Settings, c: Conn, p: P.Packet): (Conn, Status) {
    if |c.pending| >= cfg.maxPendingPackets then (c, Err(QueueFull))
    else
      var k := P.InsertAt(c.pending, p.priority.Rank());
      (c.(pending := c.pending[..k] + [p] + c.pending[k..], pendingBytes := c.pendingBytes + |p.bytes|), Ok)
  }

  // The packet takes the next number, and an encrypted one its nonce with it.
  function Stamp(c: Conn, encrypted: bool): Conn {
    c.(sequence := c.sequence + 1, sealed := if encrypted then c.sealed + [Sealed(c.connId, c.sequence)] else c.sealed)
  }

  function HeaderFor(c: Conn, kind: byte, encrypted: bool, length: nat): PacketHeader {
    PacketHeader(MAGIC, PROTOCOL_VERSION, kind, if encrypted then 1 else 0, c.connId, c.sequence, length)
  }

  function Build(c: Conn, kind: byte, encrypted: bool, load: Load): Result<seq<byte>> {
    var body := if encrypted then load.cipher else load.payload;
    PackPacket(HeaderFor(c, kind, encrypted, |body|), body, MAX_PACKET_BYTES)
  }

  // queue_packet
  function QueuePacket(cfg: Settings, c: Conn, kind: byte, encrypted: bool, load: Load, priority: Priority)
    : (Conn, Status)
  {
    if encrypted && |load.payload| > MAX_ENCRYPTED_PLAINTEXT_BYTES then (c, Err(InvalidArg))
    else if !encrypted && |load.payload| > MAX_PAYLOAD_BYTES then (c, Err(InvalidArg))
    else if encrypted && (!c.keyed || c.connId == 0) then (c.(sequence := c.sequence + 1), Err(StateError))
    else
      var bytes := Build(c, kind, encrypted, load);
      if bytes.Failure? then (Stamp(c, encrypted), Err(bytes.error))
      else EnqueuePacket(cfg, Stamp(c, encrypted), P.Packet(bytes.value, priority))
  }

  // fail_connection, and the same clearing on a remote close and after the drain
  function Fail(c: Conn): Conn { c.(phase := Closed, keyed := false, pending := [], pendingBytes := 0) }

  // connect() once the socket is open: reset, then the first hello.
  function StartConnect(cfg: Settings, now: nat, hello: Load): (Conn, Status) {
    QueuePacket(cfg, RESET.(startedMs := now, phase := Handshaking), KIND_HANDSHAKE, false, hello, High)
  }

  function OnRetry(cfg: Settings, c: Conn, hello: Load): (Conn, Status) {
    QueuePacket(cfg, c, KIND_HANDSHAKE, false, hello, High)
  }

  // handle_server_hello_packet on a decoded hello, whose tag verified or not.
  function OnServerHello(cfg: Settings, c: Conn, verified: bool, connId: nat, now: nat, finish: Load): (Conn, Status) {
    if !verified then (c, Err(AuthFailed))
    else
      var c1 := c.(keyed := true, connId := connId, lastRecvMs := now, sealed := []);
      var (c2, rc) := QueuePacket(cfg, c1, KIND_KEEPALIVE, true, finish, High);
      if rc.Err? then (Fail(c2), rc) else (c2.(phase := Established), Ok)
  }

  // What a handshake packet holds: nothing, a Retry, a ServerHello, one of these that cannot be used, or another type.
  datatype Greeting =
    | Empty
    | Retry(hello: Load)
    | ServerHello(verified: bool, connId: nat, finish: Load)
    | Unusable(error: Errc)
    | Unexpected

  // handle_handshake_packet
  function OnHandshake(cfg: Settings, c: Conn, encrypted: bool, greeting: Greeting, now: nat): (Conn, Status) {
    if encrypted then (c, Err(ProtocolError))
    else if c.phase != Handshaking then (c, Err(StateError))
    else
      match greeting
      case Empty => (c, Err(BadPacket))
      case Retry(hello) => OnRetry(cfg, c, hello)
      case ServerHello(verified, connId, finish) => OnServerHello(cfg, c, verified, connId, now, finish)
      case Unusable(error) => (c, Err(error))
      case Unexpected => (c, Err(ProtocolError))
  }

  // The end of handle_packet: which errors end the connection.
  function Judge(c: Conn, rc: Status): Conn {
    if rc.Err? && rc.error in {UnsupportedVersion, AuthFailed, ProtocolError, StateError, BadPacket, Truncated}
    then Fail(c) else c
  }

  // What handle_established_packet finds out about a packet.
  datatype Incoming = Incoming(
    kind: byte, encrypted: bool, connId: nat, sequence: nat,
    decrypts: bool, unseen: bool, closeOk: bool, framesOk: bool)

  function OnSecure(c: Conn, p: Incoming, now: nat): Conn {
    if !p.encrypted then Judge(c, Err(ProtocolError))
    else if !c.keyed then Judge(c, Err(StateError))
    else if p.connId != c.connId then Judge(c, Err(ProtocolError))
    else if !p.decrypts then Judge(c, Err(AuthFailed))
    else if p.sequence == 0 then Judge(c, Err(ProtocolError))
    else if !p.unseen then c
    else
      var c1 := c.(lastRecvMs := now);
      if p.kind == KIND_RAW || p.kind == KIND_KEEPALIVE then c1
      else if p.kind == KIND_MESSAGE then (if p.framesOk then c1 else Fail(c1))
      else if p.kind == KIND_CLOSE then (if p.closeOk then Fail(c1) else Judge(c1, Err(BadPacket)))
      else Judge(c1, Err(ProtocolError))
  }

  // handle_packet for everything but handshake packets
  function OnPacket(c: Conn, p: Incoming, now: nat): Conn {
    if p.kind == KIND_CLOSE && c.phase == Handshaking && !p.encrypted then
      if p.closeOk then Fail(c) else Judge(c, Err(BadPacket))
    else OnSecure(c, p, now)
  }

  // close()
  function CloseByUser(cfg: Settings, c: Conn, frame: Load): (Conn, Status) {
    if c.phase == Closed || c.phase == Idle then (c, Ok)
    else
      var (c1, rc) := QueuePacket(cfg, c, KIND_CLOSE, c.phase == Established || c.phase == Closing, frame, High);
      if rc.Err? then (Fail(c1), rc) else (c1.(phase := Closing), Ok)
  }

  // run_housekeeping
  function Housekeep(cfg: Settings, c: Conn, now: nat, frame: Load): Conn {
    if c.phase == Handshaking then
      if c.startedMs != 0 && Elapsed(now, c.startedMs) > cfg.handshakeTimeoutMs then Fail(c) else c
    else if c.phase == Established && c.lastRecvMs != 0 && Elapsed(now, c.lastRecvMs) > cfg.idleTimeoutMs then
      QueuePacket(cfg, c, KIND_CLOSE, true, frame, High).0.(phase := Closing)
    else if c.phase == Established && (c.lastSendMs == 0 || Elapsed(now, c.lastSendMs) >= cfg.keepaliveIntervalMs) then
      QueuePacket(cfg, c, KIND_KEEPALIVE, true, Load([], frame.cipher), High).0
    else if c.phase == Closing && c.lastSendMs != 0 && Elapsed(now, c.lastSendMs) >= cfg.closeDrainMs then Fail(c)
    else c
  }

  // What flush_pending leaves after n packets went out.
  function Flushed(c: Conn, n: nat, now: nat): Conn
    requires n <= |c.pending| && c.pendingBytes == P.Size(c.pending)
  {
    SizeSplit(c.pending, n);
    c.(pending := c.pending[n..], pendingBytes := c.pendingBytes - P.Size(c.pending[..n]),
       lastSendMs := if n > 0 then now else c.lastSendMs)
  }

  lemma {:induction false} SizeSplit(q: seq<P.Packet>, n: nat)
    requires n <= |q|
    ensures P.Size(q) == P.Size(q[..n]) + P.Size(q[n..])
  {
    if n == 0 {
      assert q[..0] == [] && q[0..] == q;
    } else {
      SizeSplit(q[1..], n - 1);
      assert q[1..][..n - 1] == q[..n][1..] && q[1..][n - 1..] == q[n..];
    }
  }

  // -------------------------------------------------------------------- the invariant

  // Every packet under the present keys had the connection's id and a number of its own.
  ghost predicate SealsOk(c: Conn) {
    && (forall i | 0 <= i < |c.sealed| :: c.sealed[i].connId == c.connId && c.sealed[i].sequence < c.sequence)
    && (forall i, j | 0 <= i < j < |c.sealed| :: c.sealed[i].sequence < c.sealed[j].sequence)
  }

  ghost predicate ConnOk(c: Conn) {
    && (c.phase == Established ==> c.keyed && c.connId != 0)
    && (c.phase == Closed ==> !c.keyed && c.pending == [] && c.pendingBytes == 0)
    && (c.phase == Idle ==> !c.keyed && c.pending == [])
    && (c.keyed ==> c.connId != 0 && (c.phase == Established || c.phase == Closing))
    && c.pendingBytes == P.Size(c.pending) && SealsOk(c)
  }

  lemma InsertSize(cfg: Settings, c: Conn, p: P.Packet)
    requires c.pendingBytes == P.Size(c.pending)
    ensures var c' := EnqueuePacket(cfg, c, p).0; c'.pendingBytes == P.Size(c'.pending)
  {
    var k := P.InsertAt(c.pending, p.priority.Rank());
    var q := c.pending[..k] + [p] + c.pending[k..];
    SizeSplit(c.pending, k);
    SizeSplit(q, k);
    assert q[..k] == c.pending[..k] && q[k..] == [p] + c.pending[k..];
  }

  lemma StampKeeps(c: Conn, encrypted: bool)
    requires SealsOk(c)
    ensures SealsOk(Stamp(c, encrypted))
  {
  }

  lemma QueueLeaves(cfg: Settings, c: Conn, kind: byte, encrypted: bool, load: Load, priority: Priority, c': Conn)
    requires c' == QueuePacket(cfg, c, kind, encrypted, load, priority).0
    ensures c'.phase == c.phase && c'.keyed == c.keyed && c'.connId == c.connId
    ensures encrypted && !c.keyed ==> c'.pending == c.pending
    ensures c'.sequence >= c.sequence
    ensures c'.sealed == c.sealed || (c'.sequence == c.sequence + 1 && c'.sealed == Stamp(c, encrypted).sealed)
  {
  }

  // Queueing changes no phase, and an encrypted packet takes a number never used under these keys.
  lemma QueueKeeps(cfg: Settings, c: Conn, kind: byte, encrypted: bool, load: Load, priority: Priority, c': Conn)
    requires SealsOk(c) && c.pendingBytes == P.Size(c.pending)
    requires c' == QueuePacket(cfg, c, kind, encrypted, load, priority).0
    ensures SealsOk(c') && c'.pendingBytes == P.Size(c'.pending)
    ensures c'.phase == c.phase && c'.keyed == c.keyed && c'.connId == c.connId
    ensures encrypted && !c.keyed ==> c'.pending == c.pending
  {
    QueueLeaves(cfg, c, kind, encrypted, load, priority, c');
    StampKeeps(c, encrypted);
    QueueCounts(cfg, c, kind, encrypted, load, priority, c');
  }

  lemma QueueCounts(cfg: Settings, c: Conn, kind: byte, encrypted: bool, load: Load, priority: Priority, c': Conn)
    requires c.pendingBytes == P.Size(c.pending) && c' == QueuePacket(cfg, c, kind, encrypted, load, priority).0
    ensures c'.pendingBytes == P.Size(c'.pending)
  {
    var bytes := Build(c, kind, encrypted, load);
    if bytes.Success? { InsertSize(cfg, Stamp(c, encrypted), P.Packet(bytes.value, priority)); }
  }

  // A payload within the limit always packs, into at most 1300 bytes that parse back to it.
  lemma QueueFailsOnlyWhenFull(cfg: Settings, c: Conn, kind: byte, encrypted: bool, load: Load, priority: Priority)
    requires kind <= KIND_CLOSE && load.Fits() && |load.payload| <= MAX_ENCRYPTED_PLAINTEXT_BYTES
    requires c.connId < U64_LIMIT && c.sequence < U64_LIMIT && (encrypted ==> c.keyed && c.connId != 0)
    ensures QueuePacket(cfg, c, kind, encrypted, load, priority).1
         == if |c.pending| >= cfg.maxPendingPackets then Err(QueueFull) else Ok
    ensures Build(c, kind, encrypted, load).Success?
    ensures var bytes, body := Build(c, kind, encrypted, load).value, if encrypted then load.cipher else load.payload;
      |bytes| <= MAX_PACKET_BYTES && ParsePacket(bytes) == Success((HeaderFor(c, kind, encrypted, |body|), body))
  {
    var body := if encrypted then load.cipher else load.payload;
    ParseOfPack(HeaderFor(c, kind, encrypted, |body|), body, MAX_PACKET_BYTES);
  }

  // ----------------------------------------------------------------------------- steps

  datatype Step =
    | Connects(now: nat, hello: Load)
    | Stops
    | GetsHandshake(encrypted: bool, greeting: Greeting, now: nat)
    | GetsPacket(packet: Incoming, now: nat)                                // of any other kind
    | GetsGarbage                                                           // a datagram that does not parse
    // send(), raw payloads, acks, retransmissions
    | Queues(kind: byte, load: Load, priority: Priority)
    | Flushes(n: nat, now: nat)
    | Closes(frame: Load)
    | Housekeeps(now: nat, frame: Load)

  predicate Legal(c: Conn, step: Step) {
    match step
    // read_server_hello refuses 0
    case GetsHandshake(_, greeting, _) => greeting.ServerHello? ==> greeting.connId != 0
    case GetsPacket(packet, _) => packet.kind != KIND_HANDSHAKE
    case Flushes(n, _) => n <= |c.pending| && c.pendingBytes == P.Size(c.pending)
    case _ => true
  }

  function Apply(cfg: Settings, c: Conn, step: Step): Conn
    requires Legal(c, step)
  {
    match step
    case Connects(now, hello) => StartConnect(cfg, now, hello).0
    case Stops => RESET
    case GetsHandshake(encrypted, greeting, now) =>
      var (c1, rc) := OnHandshake(cfg, c, encrypted, greeting, now); Judge(c1, rc)
    case GetsPacket(packet, now) => OnPacket(c, packet, now)
    case GetsGarbage => Fail(c)
    case Queues(kind, load, priority) => QueuePacket(cfg, c, kind, true, load, priority).0
    case Flushes(n, now) => Flushed(c, n, now)
    case Closes(frame) => CloseByUser(cfg, c, frame).0
    case Housekeeps(now, frame) => Housekeep(cfg, c, now, frame)
  }

  // Between one connect or stop and the next.
  predicate Restarts(step: Step) { step.Connects? || step.Stops? }

  lemma FailOk(c: Conn)
    requires SealsOk(c)
    ensures ConnOk(Fail(c))
  {
  }

  lemma QueueOk(cfg: Settings, c: Conn, kind: byte, load: Load, priority: Priority)
    requires ConnOk(c)
    ensures ConnOk(QueuePacket(cfg, c, kind, true, load, priority).0)
  {
    QueueKeeps(cfg, c, kind, true, load, priority, QueuePacket(cfg, c, kind, true, load, priority).0);
  }

  lemma JudgeOk(c: Conn, rc: Status)
    requires ConnOk(c)
    ensures ConnOk(Judge(c, rc)) && Judge(c, rc).phase.Rank() >= c.phase.Rank()
  {
    FailOk(c);
  }

  lemma ServerHelloOk(cfg: Settings, c: Conn, verified: bool, connId: nat, now: nat, finish: Load)
    requires ConnOk(c) && c.phase == Handshaking && connId != 0
    ensures var (c', rc) := OnServerHello(cfg, c, verified, connId, now, finish);
      ConnOk(c') && c'.phase == if rc.Ok? then Established else if verified then Closed else Handshaking
  {
    var c1 := c.(keyed := true, connId := connId, lastRecvMs := now, sealed := []);
    var c2 := QueuePacket(cfg, c1, KIND_KEEPALIVE, true, finish, High).0;
    QueueKeeps(cfg, c1, KIND_KEEPALIVE, true, finish, High, c2);
    FailOk(c2);
  }

  lemma RetryOk(cfg: Settings, c: Conn, hello: Load)
    requires ConnOk(c) && c.phase == Handshaking
    ensures var c' := OnRetry(cfg, c, hello).0; ConnOk(c') && c'.phase == c.phase
  {
    QueueKeeps(cfg, c, KIND_HANDSHAKE, false, hello, High, QueuePacket(cfg, c, KIND_HANDSHAKE, false, hello, High).0);
  }

  lemma HandshakeOk(cfg: Settings, c: Conn, encrypted: bool, greeting: Greeting, now: nat)
    requires ConnOk(c) && (greeting.ServerHello? ==> greeting.connId != 0)
    ensures var (c1, rc) := OnHandshake(cfg, c, encrypted, greeting, now); ConnOk(Judge(c1, rc))
  {
    if c.phase == Handshaking && greeting.Retry? { RetryOk(cfg, c, greeting.hello); }
    if c.phase == Handshaking && greeting.ServerHello? {
      ServerHelloOk(cfg, c, greeting.verified, greeting.connId, now, greeting.finish);
    }
    var (c1, rc) := OnHandshake(cfg, c, encrypted, greeting, now);
    JudgeOk(c1, rc);
  }

  lemma ConnectOk(cfg: Settings, now: nat, hello: Load)
    ensures var c' := StartConnect(cfg, now, hello).0; ConnOk(c') && c'.phase == Handshaking
  {
    var c := RESET.(startedMs := now, phase := Handshaking);
    QueueKeeps(cfg, c, KIND_HANDSHAKE, false, hello, High, StartConnect(cfg, now, hello).0);
  }

  lemma CloseOk(cfg: Settings, c: Conn, frame: Load)
    requires ConnOk(c)
    ensures ConnOk(CloseByUser(cfg, c, frame).0)
  {
    var encrypted := c.phase == Established || c.phase == Closing;
    var c1 := QueuePacket(cfg, c, KIND_CLOSE, encrypted, frame, High).0;
    QueueKeeps(cfg, c, KIND_CLOSE, encrypted, frame, High, c1);
    FailOk(c1);
  }

  lemma HousekeepOk(cfg: Settings, c: Conn, now: nat, frame: Load)
    requires ConnOk(c)
    ensures ConnOk(Housekeep(cfg, c, now, frame))
  {
    QueueOk(cfg, c, KIND_CLOSE, frame, High);
    QueueOk(cfg, c, KIND_KEEPALIVE, Load([], frame.cipher), High);
    QueueKeeps(cfg, c, KIND_CLOSE, true, frame, High, QueuePacket(cfg, c, KIND_CLOSE, true, frame, High).0);
    FailOk(c);
  }

  lemma PacketOk(c: Conn, p: Incoming, now: nat)
    requires ConnOk(c)
    ensures var c' := OnPacket(c, p, now);
      ConnOk(c') && c'.phase.Rank() >= c.phase.Rank() && (c'.phase == c.phase || c'.phase == Closed)
  {
    FailOk(c);
    FailOk(c.(lastRecvMs := now));
  }

  lemma FlushOk(c: Conn, n: nat, now: nat)
    requires ConnOk(c) && n <= |c.pending|
    ensures ConnOk(Flushed(c, n, now))
  {
    SizeSplit(c.pending, n);
  }

  lemma StepKeepsOk(cfg: Settings, c: Conn, step: Step)
    requires ConnOk(c) && Legal(c, step)
    ensures ConnOk(Apply(cfg, c, step))
  {
    match step
    case Connects(now, hello) => ConnectOk(cfg, now, hello);
    case Stops =>
    case GetsHandshake(encrypted, greeting, now) => HandshakeOk(cfg, c, encrypted, greeting, now);
    case GetsPacket(packet, now) => PacketOk(c, packet, now);
    case GetsGarbage => FailOk(c);
    case Queues(kind, load, priority) => QueueOk(cfg, c, kind, load, priority);
    case Flushes(n, now) => FlushOk(c, n, now);
    case Closes(frame) => CloseOk(cfg, c, frame);
    case Housekeeps(now, frame) => HousekeepOk(cfg, c, now, frame);
  }

  lemma QueueSamePhase(cfg: Settings, c: Conn, kind: byte, encrypted: bool, load: Load, priority: Priority)
    ensures QueuePacket(cfg, c, kind, encrypted, load, priority).0.phase == c.phase
  {
  }

  // Without connect or stop a step never goes back, and Established is entered only from Handshaking, by
  // a server hello that verified.
  lemma StepGoesForward(cfg: Settings, c: Conn, step: Step)
    requires ConnOk(c) && Legal(c, step) && !Restarts(step)
    ensures var c' := Apply(cfg, c, step);
      && c'.phase.Rank() >= c.phase.Rank()
      && (c'.phase == Established && c.phase != Established ==>
            c.phase == Handshaking && step.GetsHandshake? && step.greeting.ServerHello? && step.greeting.verified)
  {
    match step
    case GetsHandshake(encrypted, greeting, now) =>
      if c.phase == Handshaking && greeting.Retry? { RetryOk(cfg, c, greeting.hello); }
    case GetsPacket(packet, now) => PacketOk(c, packet, now);
    case GetsGarbage =>
    case Queues(kind, load, priority) => QueueSamePhase(cfg, c, kind, true, load, priority);
    case Flushes(n, now) =>
    case Closes(frame) => QueueSamePhase(cfg, c, KIND_CLOSE, c.phase == Established || c.phase == Closing, frame, High);
    case Housekeeps(now, frame) =>
      QueueSamePhase(cfg, c, KIND_CLOSE, true, frame, High);
      QueueSamePhase(cfg, c, KIND_KEEPALIVE, true, Load([], frame.cipher), High);
  }

  // ------------------------------------------------------------------------------ runs

  ghost predicate IsRun(cfg: Settings, states: seq<Conn>, steps: seq<Step>) {
    && |states| == |steps| + 1 && states[0] == RESET
    && forall n | 0 <= n < |steps| :: Legal(states[n], steps[n]) && states[n + 1] == Apply(cfg, states[n], steps[n])
  }

  // In every reachable state: Established means keys and a connection id, Closed means no keys and an
  // empty queue, and the byte count is the size of the queue.
  lemma {:induction false} RunIsOk(cfg: Settings, states: seq<Conn>, steps: seq<Step>)
    requires IsRun(cfg, states, steps)
    ensures ConnOk(states[|steps|])
    decreases |steps|
  {
    var n := |steps|;
    if n > 0 {
      RunIsOk(cfg, states[..n], steps[..n - 1]);
      StepKeepsOk(cfg, states[n - 1], steps[n - 1]);
    }
  }

  // Between restarts the phase only moves forward.
  lemma {:induction false} RunGoesForward(cfg: Settings, states: seq<Conn>, steps: seq<Step>, first: nat, last: nat)
    requires IsRun(cfg, states, steps) && first <= last <= |steps|
    requires forall n | first <= n < last :: !Restarts(steps[n])
    ensures states[first].phase.Rank() <= states[last].phase.Rank()
    decreases last
  {
    if first < last {
      RunGoesForward(cfg, states, steps, first, last - 1);
      RunIsOk(cfg, states[..last], steps[..last - 1]);
      StepGoesForward(cfg, states[last - 1], steps[last - 1]);
    }
  }

  // No two packets ever encrypted under the same keys have the same nonce.
  lemma NoncesNeverRepeat(cfg: Settings, states: seq<Conn>, steps: seq<Step>, i: nat, j: nat)
    requires IsRun(cfg, states, steps)
    requires var c := states[|steps|]; i < j < |c.sealed| && c.connId < U64_LIMIT && c.sequence <= U64_LIMIT
    ensures var c := states[|steps|];
      NonceOf(c.sealed[i].connId, c.sealed[i].sequence) != NonceOf(c.sealed[j].connId, c.sealed[j].sequence)
  {
    var c := states[|steps|];
    RunIsOk(cfg, states, steps);
    var a, b := c.sealed[i], c.sealed[j];
    if NonceOf(a.connId, a.sequence) == NonceOf(b.connId, b.sequence) {
      NonceInjective(a.connId, a.sequence, b.connId, b.sequence);
    }
  }

  // ------------------------------------------------- what an established client survives

  // A packet of the session itself: new and of a kind that ends nothing, or seen before.
  predicate Harmless(c: Conn, p: Incoming) {
    && p.encrypted && p.connId == c.connId && p.decrypts && p.sequence != 0
    && (!p.unseen || p.kind == KIND_RAW || p.kind == KIND_KEEPALIVE || (p.kind == KIND_MESSAGE && p.framesOk))
  }

  lemma HarmlessExactly(c: Conn, p: Incoming, now: nat)
    requires ConnOk(c) && c.phase == Established
    ensures OnPacket(c, p, now).phase == if Harmless(c, p) then Established else Closed
  {
  }

  // Once the handshake is over every handshake packet closes the connection, whatever it holds.
  lemma HandshakeCloses(cfg: Settings, c: Conn, encrypted: bool, greeting: Greeting, now: nat)
    requires c.phase != Handshaking
    ensures var (c1, rc) := OnHandshake(cfg, c, encrypted, greeting, now); Judge(c1, rc) == Fail(c)
  {
  }

  // The hello that established the connection, delivered a second time, closes it.
  lemma SecondHelloCloses(cfg: Settings, c: Conn, connId: nat, finish: Load, now: nat, later: nat)
    requires ConnOk(c) && c.phase == Handshaking && 0 < connId < U64_LIMIT && c.sequence < U64_LIMIT
    requires finish.Fits() && finish.payload == [] && |c.pending| < cfg.maxPendingPackets
    ensures var first := Apply(cfg, c, GetsHandshake(false, ServerHello(true, connId, finish), now));
      && first.phase == Established
      && Apply(cfg, first, GetsHandshake(false, ServerHello(true, connId, finish), later)).phase == Closed
  {
    var c1 := c.(keyed := true, connId := connId, lastRecvMs := now, sealed := []);
    QueueFailsOnlyWhenFull(cfg, c1, KIND_KEEPALIVE, true, finish, High);
    HandshakeCloses(cfg, Apply(cfg, c, GetsHandshake(false, ServerHello(true, connId, finish), now)), false,
                    ServerHello(true, connId, finish), later);
  }

  // The steps that leave an established client established.
  predicate Safe(cfg: Settings, c: Conn, step: Step) {
    match step
    case GetsPacket(packet, _) => Harmless(c, packet)
    case Queues(_, _, _) => true
    case Flushes(_, _) => true
    case Housekeeps(now, _) => c.lastRecvMs == 0 || Elapsed(now, c.lastRecvMs) <= cfg.idleTimeoutMs
    case _ => false
  }

  lemma StaysIffSafe(cfg: Settings, c: Conn, step: Step)
    requires ConnOk(c) && c.phase == Established && Legal(c, step)
    ensures Apply(cfg, c, step).phase == Established <==> Safe(cfg, c, step)
  {
    match step
    case Connects(now, hello) => ConnectOk(cfg, now, hello);
    case Stops =>
    case GetsHandshake(encrypted, greeting, now) => HandshakeCloses(cfg, c, encrypted, greeting, now);
    case GetsPacket(packet, now) => HarmlessExactly(c, packet, now);
    case GetsGarbage =>
    case Queues(kind, load, priority) => QueueSamePhase(cfg, c, kind, true, load, priority);
    case Flushes(n, now) =>
    case Closes(frame) =>
    case Housekeeps(now, frame) =>
      QueueSamePhase(cfg, c, KIND_KEEPALIVE, true, Load([], frame.cipher), High);
  }

  lemma StaysStep(cfg: Settings, c: Conn, step: Step, c': Conn)
    requires ConnOk(c) && Legal(c, step) && !Restarts(step) && c' == Apply(cfg, c, step)
    requires c.phase.Rank() >= Established.Rank()
    ensures c'.phase == Established <==> c.phase == Established && Safe(cfg, c, step)
  {
    if c.phase == Established {
      StaysIffSafe(cfg, c, step);
    } else {
      StepGoesForward(cfg, c, step);
    }
  }

  ghost predicate AllSafe(cfg: Settings, states: seq<Conn>, steps: seq<Step>, first: nat, last: nat)
    requires last <= |steps| <= |states|
  {
    forall n | first <= n < last :: Safe(cfg, states[n], steps[n])
  }

  // Between restarts, a client that was established still is if and only if every step was safe: packets of the
  // session itself and nothing from the handshake, no close and no silence beyond the idle timeout.
  lemma {:induction false} StaysEstablishedIff(cfg: Settings, states: seq<Conn>, steps: seq<Step>, first: nat,
                                               last: nat)
    requires IsRun(cfg, states, steps) && first <= last <= |steps| && states[first].phase == Established
    requires forall n | first <= n < last :: !Restarts(steps[n])
    ensures states[last].phase == Established <==> AllSafe(cfg, states, steps, first, last)
    decreases last
  {
    if first < last {
      var n := last - 1;
      StaysEstablishedIff(cfg, states, steps, first, n);
      RunIsOk(cfg, states[..last], steps[..n]);
      RunGoesForward(cfg, states, steps, first, n);
      StaysStep(cfg, states[n], steps[n], states[last]);
      OneMoreSafe(cfg, states, steps, first, n);
    }
  }

  lemma OneMoreSafe(cfg: Settings, states: seq<Conn>, steps: seq<Step>, first: nat, n: nat)
    requires first <= n < |steps| <= |states|
    ensures AllSafe(cfg, states, steps, first, n + 1) <==>
      AllSafe(cfg, states, steps, first, n) && Safe(cfg, states[n], steps[n])
  {
  }

  // ----------------------------------------------------------------------------- class

  class ClientConnection {
    const cfg: Settings
    var phase: Phase
    var connId: nat
    var keyed: bool
    var sequence: nat
    var startedMs: nat
    var lastRecvMs: nat
    var lastSendMs: nat
    var pending: seq<P.Packet>
    var pendingBytes: nat
    ghost var sealed: seq<Sealed>

    // What every operation of the connection keeps.
    ghost predicate Valid() reads this { ConnOk(Value()) }

    ghost function Value(): Conn reads this {
      Conn(phase, connId, keyed, sequence, startedMs, lastRecvMs, lastSendMs, pending, pendingBytes, sealed)
    }

    constructor (cfg: Settings)
      ensures Valid() && Value() == RESET && this.cfg == cfg
    {
      this.cfg := cfg;
      phase, connId, keyed, sequence := Idle, 0, false, 1;
      startedMs, lastRecvMs, lastSendMs := 0, 0, 0;
      pending, pendingBytes, sealed := [], 0, [];
    }

    method Stop()
      modifies this
      ensures Valid() && Value() == RESET
    {
      phase, connId, keyed, sequence := Idle, 0, false, 1;
      startedMs, lastRecvMs, lastSendMs := 0, 0, 0;
      pending, pendingBytes, sealed := [], 0, [];
    }

    method Enqueue(p: P.Packet) returns (rc: Status)
      modifies `pending, `pendingBytes
      ensures (Value(), rc) == EnqueuePacket(cfg, old(Value()), p)
    {
      if |pending| >= cfg.maxPendingPackets { return Err(QueueFull); }
      var at, rank := 0, p.priority.Rank();
      assert pending[0..] == pending;
      while at < |pending| && pending[at].priority.Rank() >= rank
        invariant at <= |pending| && pending == old(pending)
        invariant P.InsertAt(pending, rank) == at + P.InsertAt(pending[at..], rank)
      {
        assert pending[at..][1..] == pending[at + 1..];
        at := at + 1;
      }
      pendingBytes := pendingBytes + |p.bytes|;
      pending := pending[..at] + [p] + pending[at..];
      return Ok;
    }

    method Queue(kind: byte, encrypted: bool, load: Load, priority: Priority) returns (rc: Status)
      modifies `sequence, `sealed, `pending, `pendingBytes
      ensures (Value(), rc) == QueuePacket(cfg, old(Value()), kind, encrypted, load, priority)
      ensures encrypted && old(Valid()) ==> Valid()
    {
      ghost var before := Value();
      if ConnOk(before) { QueueOk(cfg, before, kind, load, priority); }
      if encrypted && |load.payload| > MAX_ENCRYPTED_PLAINTEXT_BYTES { return Err(InvalidArg); }
      if !encrypted && |load.payload| > MAX_PAYLOAD_BYTES { return Err(InvalidArg); }
      var body := if encrypted then load.cipher else load.payload;
      var header := PacketHeader(MAGIC, PROTOCOL_VERSION, kind, if encrypted then 1 else 0, connId, sequence, |body|);
      sequence := sequence + 1;
      if encrypted {
        if !keyed || connId == 0 { return Err(StateError); }
        sealed := sealed + [Sealed(connId, header.sequence)];
      }
      var bytes := PackPacket(header, body, MAX_PACKET_BYTES);
      if bytes.Failure? { return Err(bytes.error); }
      rc := Enqueue(P.Packet(bytes.value, priority));
    }

    method FailConnection()
      modifies `phase, `keyed, `pending, `pendingBytes
      ensures Value() == Fail(old(Value()))
      ensures old(SealsOk(Value())) ==> Valid()
    {
      ghost var before := Value();
      if SealsOk(before) { FailOk(before); }
      pending, pendingBytes := [], 0;
      keyed := false;
      phase := Closed;
    }

    method Connect(now: nat, hello: Load) returns (rc: Status)
      modifies this
      ensures Valid() && phase == Handshaking && (Value(), rc) == StartConnect(cfg, now, hello)
    {
      ConnectOk(cfg, now, hello);
      Stop();
      startedMs := now;
      phase := Handshaking;
      rc := Queue(KIND_HANDSHAKE, false, hello, High);
    }

    method HandleServerHello(verified: bool, id: nat, now: nat, finish: Load) returns (rc: Status)
      requires Valid() && phase == Handshaking && id != 0
      modifies this
      ensures Valid() && (Value(), rc) == OnServerHello(cfg, old(Value()), verified, id, now, finish)
      ensures phase == if rc.Ok? then Established else if verified then Closed else Handshaking
      ensures if verified then connId == id && lastRecvMs == now else Value() == old(Value())
    {
      ghost var goal := OnServerHello(cfg, Value(), verified, id, now, finish);
      ServerHelloOk(cfg, Value(), verified, id, now, finish);
      if !verified { return Err(AuthFailed); }
      keyed, connId, lastRecvMs, sealed := true, id, now, [];
      rc := Queue(KIND_KEEPALIVE, true, finish, High);
      if rc.Err? { FailConnection(); } else { phase := Established; }
      assert (Value(), rc) == goal;
    }

    // handle_handshake_packet, and what handle_packet makes of its error
    method HandleHandshakePacket(encrypted: bool, greeting: Greeting, now: nat)
      requires Valid() && (greeting.ServerHello? ==> greeting.connId != 0)
      modifies this
      ensures Value() == var (c, rc) := OnHandshake(cfg, old(Value()), encrypted, greeting, now); Judge(c, rc)
      ensures Valid() && phase.Rank() >= old(phase).Rank() && (old(phase) != Handshaking ==> phase == Closed)
    {
      HandshakeOk(cfg, Value(), encrypted, greeting, now);
      var rc: Status;
      if encrypted {
        rc := Err(ProtocolError);
      } else if phase != Handshaking {
        rc := Err(StateError);
      } else {
        match greeting
        case Empty => rc := Err(BadPacket);
        case Retry(hello) => rc := Queue(KIND_HANDSHAKE, false, hello, High);
        case ServerHello(verified, id, finish) => rc := HandleServerHello(verified, id, now, finish);
        case Unusable(error) => rc := Err(error);
        case Unexpected => rc := Err(ProtocolError);
      }
      EndOn(rc);
    }

    // The error handling at the end of handle_packet.
    method EndOn(rc: Status)
      modifies `phase, `keyed, `pending, `pendingBytes
      ensures Value() == Judge(old(Value()), rc)
    {
      if rc.Ok? { return; }
      if rc.error == UnsupportedVersion || rc.error == AuthFailed || rc.error == ProtocolError ||
         rc.error == StateError || rc.error == BadPacket || rc.error == Truncated {
        FailConnection();
      }
    }

    method HandleSecurePacket(p: Incoming, now: nat)
      modifies this
      ensures Value() == OnSecure(old(Value()), p, now)
    {
      if !p.encrypted { EndOn(Err(ProtocolError)); return; }
      if !keyed { EndOn(Err(StateError)); return; }
      if p.connId != connId { EndOn(Err(ProtocolError)); return; }
      if !p.decrypts { EndOn(Err(AuthFailed)); return; }
      if p.sequence == 0 { EndOn(Err(ProtocolError)); return; }
      if !p.unseen { return; }
      lastRecvMs := now;
      if p.kind == KIND_RAW || p.kind == KIND_KEEPALIVE { return; }
      if p.kind == KIND_MESSAGE {
        if !p.framesOk { FailConnection(); }
        return;
      }
      if p.kind == KIND_CLOSE {
        if p.closeOk { FailConnection(); } else { EndOn(Err(BadPacket)); }
        return;
      }
      EndOn(Err(ProtocolError));
    }

    method HandlePacket(p: Incoming, now: nat)
      requires Valid() && p.kind != KIND_HANDSHAKE
      modifies this
      ensures Valid() && Value() == OnPacket(old(Value()), p, now)
      ensures old(phase) == Established ==> phase == if Harmless(old(Value()), p) then Established else Closed
    {
      PacketOk(Value(), p, now);
      if phase == Established { HarmlessExactly(Value(), p, now); }
      if p.kind == KIND_CLOSE && phase == Handshaking && !p.encrypted {
        if p.closeOk { FailConnection(); } else { EndOn(Err(BadPacket)); }
        return;
      }
      HandleSecurePacket(p, now);
    }

    method Close(frame: Load) returns (rc: Status)
      requires Valid()
      modifies this
      ensures Valid() && (Value(), rc) == CloseByUser(cfg, old(Value()), frame)
      ensures phase ==
        if old(phase) == Idle || old(phase) == Closed then old(phase) else if rc.Ok? then Closing else Closed
    {
      CloseOk(cfg, Value(), frame);
      if phase == Closed || phase == Idle { return Ok; }
      rc := Queue(KIND_CLOSE, phase == Established || phase == Closing, frame, High);
      if rc.Err? {
        FailConnection();
        return;
      }
      phase := Closing;
    }

    method RunHousekeeping(now: nat, frame: Load) returns (rc: Status)
      requires Valid()
      modifies this
      ensures Valid() && Value() == Housekeep(cfg, old(Value()), now, frame) && phase.Rank() >= old(phase).Rank()
    {
      HousekeepOk(cfg, Value(), now, frame);
      if phase == Handshaking {
        if startedMs != 0 && Elapsed(now, startedMs) > cfg.handshakeTimeoutMs { FailConnection(); }
        return Ok;
      }
      if phase == Established {
        if lastRecvMs != 0 && Elapsed(now, lastRecvMs) > cfg.idleTimeoutMs {
          rc := Queue(KIND_CLOSE, true, frame, High);
          phase := Closing;
          return Ok;
        }
        if lastSendMs == 0 || Elapsed(now, lastSendMs) >= cfg.keepaliveIntervalMs {
          rc := Queue(KIND_KEEPALIVE, true, Load([], frame.cipher), High);
          return;
        }
      }
      if phase == Closing && lastSendMs != 0 && Elapsed(now, lastSendMs) >= cfg.closeDrainMs { FailConnection(); }
      return Ok;
    }
  }
}
