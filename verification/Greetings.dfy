// The packets a client builds, and the connection id they bear: the one of the last server hello that verified.
module Greetings {
  import opened Config
  import opened Codec
  import opened Hello
  import opened Connection
  import P = Pacing
  import H = Handshake

  // ------------------------------------------------------------------- what is queued

  ghost predicate Queueable(c: Conn, kind: byte, encrypted: bool, load: Load) {
    && kind <= KIND_CLOSE && load.Fits() && |load.payload| <= MAX_ENCRYPTED_PLAINTEXT_BYTES
    && c.connId < U64_LIMIT && c.sequence < U64_LIMIT && (encrypted ==> c.keyed && c.connId != 0)
  }

  // The packet parses to this kind and this id, encrypted or not, under the connection's next number.
  ghost predicate Carries(p: P.Packet, c: Conn, kind: byte, encrypted: bool, connId: nat, load: Load) {
    var body := if encrypted then load.cipher else load.payload;
    ParsePacket(p.bytes) == Success((
      PacketHeader(MAGIC, PROTOCOL_VERSION, kind, if encrypted then 1 else 0, connId, c.sequence, |body|), body))
  }

  // queue_packet() on a queue with room: one packet more, which parses back to what was asked for.
  lemma QueuedPacket(cfg: Settings, c: Conn, kind: byte, encrypted: bool, load: Load, priority: Priority)
    returns (p: P.Packet)
    requires Queueable(c, kind, encrypted, load) && |c.pending| < cfg.maxPendingPackets
    ensures Carries(p, c, kind, encrypted, c.connId, load) && p.priority == priority && |p.bytes| <= MAX_PACKET_BYTES
    ensures var (c', rc) := QueuePacket(cfg, c, kind, encrypted, load, priority);
      && rc == Ok && c'.pending == P.Inserted(c.pending, p) && c'.sequence == c.sequence + 1
      && c'.phase == c.phase && c'.connId == c.connId && c'.keyed == c.keyed
      && c'.sealed == c.sealed + if encrypted then [Sealed(c.connId, c.sequence)] else []
  {
    QueueFailsOnlyWhenFull(cfg, c, kind, encrypted, load, priority);
    p := P.Packet(Build(c, kind, encrypted, load).value, priority);
    assert c.sealed + [] == c.sealed;
  }

  // connect() sends a hello without an id as packet 1.
  lemma ConnectGreets(cfg: Settings, now: nat, hello: Load) returns (p: P.Packet)
    requires hello.Fits() && |hello.payload| <= MAX_ENCRYPTED_PLAINTEXT_BYTES && cfg.maxPendingPackets > 0
    ensures Carries(p, RESET, KIND_HANDSHAKE, false, 0, hello)
    ensures var (c, rc) := StartConnect(cfg, now, hello);
      rc == Ok && c.phase == Handshaking && c.pending == [p] && c.startedMs == now && !c.keyed
  {
    p := QueuedPacket(cfg, RESET.(startedMs := now, phase := Handshaking), KIND_HANDSHAKE, false, hello, High);
  }

  // A Retry in the handshake is answered with another hello, under the next number, and changes nothing else.
  lemma RetryGreets(cfg: Settings, c: Conn, now: nat, hello: Load) returns (p: P.Packet)
    requires c.phase == Handshaking && Queueable(c, KIND_HANDSHAKE, false, hello)
    requires |c.pending| < cfg.maxPendingPackets
    ensures Carries(p, c, KIND_HANDSHAKE, false, c.connId, hello) && p.priority == High
    ensures var c' := Apply(cfg, c, GetsHandshake(false, Retry(hello), now));
      c'.pending == P.Inserted(c.pending, p) && c'.phase == Handshaking && c'.sequence == c.sequence + 1
  {
    p := QueuedPacket(cfg, c, KIND_HANDSHAKE, false, hello, High);
  }

  // A server hello that verifies: the client takes its connection id, and answers with an encrypted keepalive under
  // that id and the next number.
  lemma HelloAnswered(cfg: Settings, c: Conn, connId: nat, now: nat, finish: Load) returns (p: P.Packet)
    requires c.phase == Handshaking && 0 < connId < U64_LIMIT && c.sequence < U64_LIMIT
    requires finish.Fits() && |finish.payload| <= MAX_ENCRYPTED_PLAINTEXT_BYTES && |c.pending| < cfg.maxPendingPackets
    ensures Carries(p, c, KIND_KEEPALIVE, true, connId, finish) && p.priority == High
    ensures var c' := Apply(cfg, c, GetsHandshake(false, Greeting.ServerHello(true, connId, finish), now));
      && c'.phase == Established && c'.keyed && c'.connId == connId && c'.lastRecvMs == now
      && c'.sequence == c.sequence + 1 && c'.sealed == [Sealed(connId, c.sequence)]
      && c'.pending == P.Inserted(c.pending, p)
  {
    var c1 := c.(keyed := true, connId := connId, lastRecvMs := now, sealed := []);
    p := QueuedPacket(cfg, c1, KIND_KEEPALIVE, true, finish, High);
  }

  // --------------------------------------------------------- the id of the last verified hello

  // A server hello reaches a client in its handshake, in the clear, and verifies.
  ghost predicate Verifies(c: Conn, step: Step) {
    && step.GetsHandshake? && !step.encrypted && c.phase == Handshaking
    && step.greeting.ServerHello? && step.greeting.verified
  }

  // The id of the last such hello since the last connect or stop, or 0.
  ghost function LastHello(states: seq<Conn>, steps: seq<Step>): nat
    requires |states| == |steps| + 1
    decreases |steps|
  {
    var n := |steps|;
    if n == 0 || Restarts(steps[n - 1]) then 0
    else if Verifies(states[n - 1], steps[n - 1]) then steps[n - 1].greeting.connId
    else LastHello(states[..n], steps[..n - 1])
  }

  lemma QueueKeepsId(cfg: Settings, c: Conn, kind: byte, encrypted: bool, load: Load, priority: Priority)
    ensures QueuePacket(cfg, c, kind, encrypted, load, priority).0.connId == c.connId
  {
  }

  lemma HandshakeId(cfg: Settings, c: Conn, step: Step)
    requires step.GetsHandshake? && Legal(c, step)
    ensures Apply(cfg, c, step).connId == if Verifies(c, step) then step.greeting.connId else c.connId
  {
    match step.greeting
    case Retry(hello) => QueueKeepsId(cfg, c, KIND_HANDSHAKE, false, hello, High);
    case ServerHello(_, connId, finish) =>
      var c1 := c.(keyed := true, connId := connId, lastRecvMs := step.now, sealed := []);
      QueueKeepsId(cfg, c1, KIND_KEEPALIVE, true, finish, High);
    case _ =>
  }

  lemma StepId(cfg: Settings, c: Conn, step: Step)
    requires Legal(c, step)
    ensures Apply(cfg, c, step).connId ==
      if Restarts(step) then 0 else if Verifies(c, step) then step.greeting.connId else c.connId
  {
    match step
    case Connects(now, hello) =>
      QueueKeepsId(cfg, RESET.(startedMs := now, phase := Handshaking), KIND_HANDSHAKE, false, hello, High);
    case GetsHandshake(_, _, _) => HandshakeId(cfg, c, step);
    case Queues(kind, load, priority) => QueueKeepsId(cfg, c, kind, true, load, priority);
    case Closes(frame) =>
      QueueKeepsId(cfg, c, KIND_CLOSE, c.phase == Established || c.phase == Closing, frame, High);
    case Housekeeps(_, frame) =>
      QueueKeepsId(cfg, c, KIND_CLOSE, true, frame, High);
      QueueKeepsId(cfg, c, KIND_KEEPALIVE, true, Load([], frame.cipher), High);
    case _ =>
  }

  // In every run the connection id is the one of the last hello that verified, and an established client has one; every
  // packet encrypted under the present keys bears it.
  lemma {:induction false} IdIsLastHello(cfg: Settings, states: seq<Conn>, steps: seq<Step>)
    requires IsRun(cfg, states, steps)
    ensures var c, id := states[|steps|], LastHello(states, steps);
      && c.connId == id && (c.phase == Established ==> id != 0)
      && (forall i | 0 <= i < |c.sealed| :: c.sealed[i].connId == id)
    decreases |steps|
  {
    var n := |steps|;
    if n > 0 {
      IdIsLastHello(cfg, states[..n], steps[..n - 1]);
      StepId(cfg, states[n - 1], steps[n - 1]);
    }
    RunIsOk(cfg, states, steps);
  }

  // ------------------------------------------------------------- when the peer was last heard

  // A packet of the session that was not seen before.
  ghost predicate Hears(c: Conn, step: Step) {
    && step.GetsPacket? && step.packet.encrypted && c.keyed && step.packet.connId == c.connId
    && step.packet.decrypts && step.packet.sequence != 0 && step.packet.unseen
  }

  // The time of the last such packet or verified hello since the last connect or stop, or 0.
  ghost function LastHeard(states: seq<Conn>, steps: seq<Step>): nat
    requires |states| == |steps| + 1
    decreases |steps|
  {
    var n := |steps|;
    if n == 0 || Restarts(steps[n - 1]) then 0
    else if Verifies(states[n - 1], steps[n - 1]) || Hears(states[n - 1], steps[n - 1]) then steps[n - 1].now
    else LastHeard(states[..n], steps[..n - 1])
  }

  lemma QueueKeepsTimes(cfg: Settings, c: Conn, kind: byte, encrypted: bool, load: Load, priority: Priority)
    ensures QueuePacket(cfg, c, kind, encrypted, load, priority).0.lastRecvMs == c.lastRecvMs
  {
  }

  lemma HandshakeHears(cfg: Settings, c: Conn, step: Step)
    requires step.GetsHandshake? && Legal(c, step)
    ensures Apply(cfg, c, step).lastRecvMs == if Verifies(c, step) then step.now else c.lastRecvMs
  {
    match step.greeting
    case Retry(hello) => QueueKeepsTimes(cfg, c, KIND_HANDSHAKE, false, hello, High);
    case ServerHello(_, connId, finish) =>
      var c1 := c.(keyed := true, connId := connId, lastRecvMs := step.now, sealed := []);
      QueueKeepsTimes(cfg, c1, KIND_KEEPALIVE, true, finish, High);
    case _ =>
  }

  lemma StepHears(cfg: Settings, c: Conn, step: Step)
    requires Legal(c, step)
    ensures Apply(cfg, c, step).lastRecvMs ==
      if Restarts(step) then 0 else if Verifies(c, step) || Hears(c, step) then step.now else c.lastRecvMs
  {
    match step
    case Connects(now, hello) =>
      QueueKeepsTimes(cfg, RESET.(startedMs := now, phase := Handshaking), KIND_HANDSHAKE, false, hello, High);
    case GetsHandshake(_, _, _) => HandshakeHears(cfg, c, step);
    case Queues(kind, load, priority) => QueueKeepsTimes(cfg, c, kind, true, load, priority);
    case Closes(frame) =>
      QueueKeepsTimes(cfg, c, KIND_CLOSE, c.phase == Established || c.phase == Closing, frame, High);
    case Housekeeps(_, frame) =>
      QueueKeepsTimes(cfg, c, KIND_CLOSE, true, frame, High);
      QueueKeepsTimes(cfg, c, KIND_KEEPALIVE, true, Load([], frame.cipher), High);
    case _ =>
  }

  // In every run the silence that the idle timeout measures began with the last packet of the session that was new, or
  // with the hello; replays and packets that do not decrypt do not count.
  lemma {:induction false} SilenceSinceLastHeard(cfg: Settings, states: seq<Conn>, steps: seq<Step>)
    requires IsRun(cfg, states, steps)
    ensures states[|steps|].lastRecvMs == LastHeard(states, steps)
    decreases |steps|
  {
    var n := |steps|;
    if n > 0 {
      SilenceSinceLastHeard(cfg, states[..n], steps[..n - 1]);
      StepHears(cfg, states[n - 1], steps[n - 1]);
    }
  }

  // The time of the last flush since the last connect or stop that sent something, or 0.
  ghost function LastSent(steps: seq<Step>): nat
    decreases |steps|
  {
    var n := |steps|;
    if n == 0 || Restarts(steps[n - 1]) then 0
    else if steps[n - 1].Flushes? && steps[n - 1].n > 0 then steps[n - 1].now
    else LastSent(steps[..n - 1])
  }

  lemma QueueKeepsSent(cfg: Settings, c: Conn, kind: byte, encrypted: bool, load: Load, priority: Priority)
    ensures QueuePacket(cfg, c, kind, encrypted, load, priority).0.lastSendMs == c.lastSendMs
  {
  }

  lemma HandshakeKeepsSent(cfg: Settings, c: Conn, step: Step)
    requires step.GetsHandshake? && Legal(c, step)
    ensures Apply(cfg, c, step).lastSendMs == c.lastSendMs
  {
    match step.greeting
    case Retry(hello) => QueueKeepsSent(cfg, c, KIND_HANDSHAKE, false, hello, High);
    case ServerHello(_, connId, finish) =>
      var c1 := c.(keyed := true, connId := connId, lastRecvMs := step.now, sealed := []);
      QueueKeepsSent(cfg, c1, KIND_KEEPALIVE, true, finish, High);
    case _ =>
  }

  lemma StepSends(cfg: Settings, c: Conn, step: Step)
    requires Legal(c, step)
    ensures Apply(cfg, c, step).lastSendMs ==
      if Restarts(step) then 0 else if step.Flushes? && step.n > 0 then step.now else c.lastSendMs
  {
    match step
    case Connects(now, hello) =>
      QueueKeepsSent(cfg, RESET.(startedMs := now, phase := Handshaking), KIND_HANDSHAKE, false, hello, High);
    case GetsHandshake(_, _, _) => HandshakeKeepsSent(cfg, c, step);
    case Queues(kind, load, priority) => QueueKeepsSent(cfg, c, kind, true, load, priority);
    case Closes(frame) =>
      QueueKeepsSent(cfg, c, KIND_CLOSE, c.phase == Established || c.phase == Closing, frame, High);
    case Housekeeps(_, frame) =>
      QueueKeepsSent(cfg, c, KIND_CLOSE, true, frame, High);
      QueueKeepsSent(cfg, c, KIND_KEEPALIVE, true, Load([], frame.cipher), High);
    case _ =>
  }

  // In every run the keepalive interval and the drain are measured from the last flush that sent something.
  lemma {:induction false} QuietSinceLastSent(cfg: Settings, states: seq<Conn>, steps: seq<Step>)
    requires IsRun(cfg, states, steps)
    ensures states[|steps|].lastSendMs == LastSent(steps)
    decreases |steps|
  {
    var n := |steps|;
    if n > 0 {
      QuietSinceLastSent(cfg, states[..n], steps[..n - 1]);
      StepSends(cfg, states[n - 1], steps[n - 1]);
    }
  }

  // In every run, whatever an established client queues goes out encrypted under the id of that hello.
  lemma LaterPackets(cfg: Settings, states: seq<Conn>, steps: seq<Step>, kind: byte, load: Load, priority: Priority)
    returns (p: P.Packet)
    requires IsRun(cfg, states, steps) && kind <= KIND_CLOSE
    requires load.Fits() && |load.payload| <= MAX_ENCRYPTED_PLAINTEXT_BYTES
    requires var c := states[|steps|];
      && c.phase == Established && c.connId < U64_LIMIT && c.sequence < U64_LIMIT
      && |c.pending| < cfg.maxPendingPackets
    ensures var c := states[|steps|];
      && Carries(p, c, kind, true, LastHello(states, steps), load) && p.priority == priority
      && Apply(cfg, c, Queues(kind, load, priority)).pending == P.Inserted(c.pending, p)
  {
    EstablishedIsKeyed(cfg, states, steps, states[|steps|]);
    p := QueuedPacket(cfg, states[|steps|], kind, true, load, priority);
  }

  lemma EstablishedIsKeyed(cfg: Settings, states: seq<Conn>, steps: seq<Step>, c: Conn)
    requires IsRun(cfg, states, steps) && c == states[|steps|] && c.phase == Established
    ensures c.keyed && c.connId == LastHello(states, steps) != 0
  {
    IdIsLastHello(cfg, states, steps);
    RunIsOk(cfg, states, steps);
  }

  // -------------------------------------------------------------------- what ends a client

  // Every packet but a handshake packet ends a client without keys; with keys it is harmless or ends it, and what is
  // new of the session is heard.
  lemma PacketEnds(c: Conn, p: Incoming, now: nat)
    requires p.kind != KIND_HANDSHAKE && (c.keyed ==> c.phase != Handshaking)
    ensures OnPacket(c, p, now).phase == if c.keyed && Harmless(c, p) then c.phase else Closed
    ensures c.keyed && Harmless(c, p) ==> OnPacket(c, p, now) == if p.unseen then c.(lastRecvMs := now) else c
    ensures !(c.keyed && Harmless(c, p)) ==> OnPacket(c, p, now).pending == [] && !OnPacket(c, p, now).keyed
  {
  }

  // The errors that a client in its handshake survives.
  predicate Mild(e: Errc) {
    e == InvalidArg || e == EndOfStream || e == TooLarge || e == QueueFull || e == Backpressure
  }

  // In the handshake: a packet that is encrypted, empty, of another type, cannot be used for anything but a mild
  // error or does not verify ends it; one that verifies establishes it, or ends it when there is no room for the
  // answer.
  lemma HandshakeEnds(cfg: Settings, c: Conn, encrypted: bool, greeting: Greeting, now: nat)
    requires c.phase == Handshaking && c.sequence < U64_LIMIT && c.connId < U64_LIMIT
    requires greeting.Retry? ==> greeting.hello.Fits() && |greeting.hello.payload| <= MAX_ENCRYPTED_PLAINTEXT_BYTES
    requires greeting.ServerHello? ==>
      && 0 < greeting.connId < U64_LIMIT
      && greeting.finish.Fits() && |greeting.finish.payload| <= MAX_ENCRYPTED_PLAINTEXT_BYTES
    ensures Apply(cfg, c, GetsHandshake(encrypted, greeting, now)).phase ==
      if encrypted || greeting.Empty? || greeting.Unexpected? then Closed
      else if greeting.Unusable? then (if Mild(greeting.error) then Handshaking else Closed)
      else if greeting.Retry? then Handshaking
      else if greeting.verified && |c.pending| < cfg.maxPendingPackets then Established else Closed
  {
    match greeting
    case Retry(hello) => QueueFailsOnlyWhenFull(cfg, c, KIND_HANDSHAKE, false, hello, High);
    case ServerHello(verified, connId, finish) =>
      var c1 := c.(keyed := true, connId := connId, lastRecvMs := now, sealed := []);
      QueueFailsOnlyWhenFull(cfg, c1, KIND_KEEPALIVE, true, finish, High);
    case _ =>
  }

  // close() with room: one packet that parses to a close, encrypted if and only if the connection is established or
  // closing already, and the client is closing.
  lemma UserClosePacket(cfg: Settings, c: Conn, frame: Load) returns (p: P.Packet)
    requires c.phase != Idle && c.phase != Closed && |c.pending| < cfg.maxPendingPackets
    requires Queueable(c, KIND_CLOSE, c.phase == Established || c.phase == Closing, frame)
    ensures Carries(p, c, KIND_CLOSE, c.phase == Established || c.phase == Closing, c.connId, frame)
    ensures var (c', rc) := CloseByUser(cfg, c, frame);
      rc == Ok && c'.phase == Closing && c'.pending == P.Inserted(c.pending, p) && p.priority == High
  {
    p := QueuedPacket(cfg, c, KIND_CLOSE, c.phase == Established || c.phase == Closing, frame, High);
  }

  // ---------------------------------------------------------------- the two views of a client

  // The connection and the key agreement's client are the same client.
  ghost predicate Same(c: Conn, h: H.Client) {
    c.phase == h.phase && c.connId == h.connId && (c.keyed <==> h.keys.Some?)
  }

  // The tag of an answer is the one this client computes for it.
  ghost predicate TagHolds(h: H.Client, answer: ServerHello<H.Tag>) {
    answer.mac == H.Tag(H.ClientKeys(h.publicKey, answer.publicKey).rx, Transcript(H.Offer(h), answer))
  }

  // handle_server_hello_packet, in both views: with the tag test for `verified` and the room in the queue for `queued`,
  // they do the same.
  lemma ServerHelloSame(cfg: Settings, c: Conn, h: H.Client, answer: ServerHello<H.Tag>, now: nat, finish: Load)
    requires Same(c, h) && 0 < answer.connId < U64_LIMIT && c.sequence < U64_LIMIT
    requires finish.Fits() && |finish.payload| <= MAX_ENCRYPTED_PLAINTEXT_BYTES
    ensures var verified, queued := TagHolds(h, answer), |c.pending| < cfg.maxPendingPackets;
      var (h', rc) := H.OnServerHello(h, answer, queued);
      var step := GetsHandshake(false, Greeting.ServerHello(verified, answer.connId, finish), now);
      Same(Apply(cfg, c, step), H.Judge(h', rc))
  {
    if c.phase == Handshaking && TagHolds(h, answer) {
      var c1 := c.(keyed := true, connId := answer.connId, lastRecvMs := now, sealed := []);
      QueueFailsOnlyWhenFull(cfg, c1, KIND_KEEPALIVE, true, finish, High);
    }
  }

  // handle_retry_packet, likewise.
  lemma RetrySame(cfg: Settings, c: Conn, h: H.Client, token: RetryToken, now: nat, hello: Load)
    requires Same(c, h) && hello.Fits() && |hello.payload| <= MAX_ENCRYPTED_PLAINTEXT_BYTES
    requires c.connId < U64_LIMIT && c.sequence < U64_LIMIT
    ensures var (h', rc) := H.OnRetry(h, token);
      Same(Apply(cfg, c, GetsHandshake(false, Retry(hello), now)), H.Judge(h', rc))
  {
    QueueFailsOnlyWhenFull(cfg, c, KIND_HANDSHAKE, false, hello, High);
  }
}
